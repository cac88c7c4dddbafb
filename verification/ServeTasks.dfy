/** The code of serve mode's tasks, run on the shared state and interrupted between any two of its steps.
    Each method is proved to make only steps of the transition system, so what holds of every reachable state holds throughout. */
module ServeTasks {
  import opened Scheduler
  import opened SchedulerSafety
  import opened SchedulerTheorems

  datatype Admission = ShuttingDown | QueueFull(queued: nat) | Accepted(id: Id, position: nat)

  /** What a wait came to: it is over, shutdown came first, or the schedule ended while it lasted. */
  datatype Pass = Done | Tripped | Suspended

  /** A flow's `queued` and `running`. */
  datatype FlowLoad = FlowLoad(queued: nat, running: nat)

  /** The task whose code is running: an accept holding a flow's interlock, a flow's worker, a run, or a mere reader. */
  datatype Task = Accepting(f: Flow) | Working(f: Flow) | Settling(r: nat) | Reading

  predicate AcceptLabel(l: Label) { l.Admit? || l.Count? || l.Register? || l.Send? }

  predicate Mine(t: Task, l: Label) {
    match t
    case Accepting(f) => AcceptLabel(l) && l.f == f
    case Working(f) => FlowLabel(l) && !AcceptLabel(l) && l.f == f
    case Settling(r) => !FlowLabel(l) && !l.Shutdown? && l.r == r
    case Reading => false
  }

  /** What a task may count on while others run. */
  ghost predicate Undisturbed(t: Task, s: Sys, n: Sys) {
    && |n.flows| == |s.flows| && |s.runs| <= |n.runs| && s.settled <= n.settled && s.home <= n.home && (s.shutdown ==> n.shutdown)
    && match t
       case Accepting(f) => f < |s.flows| ==> SameAccept(s.flows[f], n.flows[f])
       case Working(f) => f < |s.flows| ==> SameWorker(s.flows[f], n.flows[f])
       case Settling(r) => r < |s.runs| ==> n.runs[r] == s.runs[r]
       case Reading => true
  }

  /** No run gets a queue slot without being started: what holds slots grows no faster than what has started. */
  ghost predicate SlotsFollowStarts(s: Sys, n: Sys) {
    |n.flows| == |s.flows| && forall f :: 0 <= f < |s.flows| ==>
      RunTotal(Slots(f), n.runs) + |s.flows[f].started| <= RunTotal(Slots(f), s.runs) + |n.flows[f].started|
  }

  lemma StepSlots(c: Config, s: Sys, l: Label)
    requires Enabled(c, s, l)
    ensures SlotsFollowStarts(s, Next(c, s, l))
  {
    var n := Next(c, s, l);
    forall f | 0 <= f < |s.flows|
      ensures RunTotal(Slots(f), n.runs) + |s.flows[f].started| <= RunTotal(Slots(f), s.runs) + |n.flows[f].started|
    {
      if l.Shutdown? {
      } else if FlowLabel(l) {
        FlowStepSlots(c, s, l, f);
      } else {
        RunTotalUpdate(Slots(f), s.runs, l.r, RunAfter(s.runs[l.r], l));
      }
    }
  }

  lemma FlowStepSlots(c: Config, s: Sys, l: Label, f: Flow)
    requires FlowLabel(l) && l.f < |s.flows| == |c.members| && FlowEnabled(c, s, l) && f < |s.flows|
    ensures var n := FlowNext(c, s, l);
      RunTotal(Slots(f), n.runs) + |s.flows[f].started| == RunTotal(Slots(f), s.runs) + |n.flows[f].started|
  {
    if l.Spawn? { RunTotalAppend(Slots(f), s.runs, RunTask(l.f, s.flows[l.f].worker.job, Live, 0, true, s.flows[l.f].guards)); }
  }

  ghost predicate BegunGrows(s: Sys, n: Sys) {
    |n.flows| == |s.flows| && forall f :: 0 <= f < |s.flows| ==> Begun(s.flows[f]) <= Begun(n.flows[f])
  }

  lemma StepBegun(c: Config, s: Sys, l: Label)
    requires Enabled(c, s, l)
    ensures BegunGrows(s, Next(c, s, l))
  {
    if FlowLabel(l) {
      FlowStepBegun(c, s, l);
      hide FlowAfter, FlowEnabled, LockedAfter, WaitingAfter, HubAfter, SettledBy, Begun;
    } else {
      hide SetStatus, Unlock;
    }
  }

  lemma FlowStepBegun(c: Config, s: Sys, l: Label)
    requires FlowLabel(l) && l.f < |s.flows| == |c.members| && FlowEnabled(c, s, l)
    ensures Begun(s.flows[l.f]) <= Begun(FlowAfter(c, s, l))
  {
  }

  lemma BegunTrans(a: Sys, b: Sys, d: Sys)
    requires BegunGrows(a, b) && BegunGrows(b, d)
    ensures BegunGrows(a, d)
  {
    hide Begun;
    forall f | 0 <= f < |a.flows| ensures Begun(a.flows[f]) <= Begun(d.flows[f]) {
      assert Begun(a.flows[f]) <= Begun(b.flows[f]);
    }
  }

  lemma SlotsTrans(a: Sys, b: Sys, d: Sys)
    requires SlotsFollowStarts(a, b) && SlotsFollowStarts(b, d)
    ensures SlotsFollowStarts(a, d)
  {
    hide RunTotal;
    forall f | 0 <= f < |a.flows|
      ensures RunTotal(Slots(f), d.runs) + |a.flows[f].started| <= RunTotal(Slots(f), a.runs) + |d.flows[f].started|
    {
      assert RunTotal(Slots(f), b.runs) + |a.flows[f].started| <= RunTotal(Slots(f), a.runs) + |b.flows[f].started|;
    }
  }

  lemma {:induction false} SlotsWithinCounts(f: Flow, runs: seq<RunTask>)
    ensures RunTotal(Slots(f), runs) <= RunTotal(Counts(f), runs)
  {
    if runs != [] { SlotsWithinCounts(f, runs[..|runs| - 1]); }
  }

  /** Triggers of a flow accepted and not yet committed to a run, and those committed so far. */
  function Unbegun(fl: FlowState): nat { Waiting(fl) - (if fl.worker.Committed? then 1 else 0) }
  function Begun(fl: FlowState): nat { |fl.started| + (if fl.worker.Committed? then 1 else 0) }

  function Minus(a: nat, b: nat): nat { if a < b then 0 else a - b }

  /** What a load read as `running` at a and `outstanding` at b says: exact counts, and as queued at most the triggers
      that had not begun at a. */
  ghost predicate LoadTold(c: Config, f: Flow, load: FlowLoad, a: Sys, b: Sys) {
    && Reachable(c, a) && Reachable(c, b) && f < |a.flows| == |b.flows|
    && load.running == RunTotal(Counts(f), a.runs) + (if a.flows[f].worker.Committed? then 1 else 0)
    && load.queued == Minus(Waiting(b.flows[f]) + RunTotal(Slots(f), b.runs), load.running)
    && Begun(a.flows[f]) <= Begun(b.flows[f])
    && load.queued <= Unbegun(b.flows[f]) + Begun(b.flows[f]) - Begun(a.flows[f])
  }

  /** It takes the slot being given back before the count: then whatever still holds a slot at b was counted as running at a
      or began in between. */
  lemma LoadIsTold(c: Config, f: Flow, a: Sys, b: Sys)
    requires Reachable(c, a) && Reachable(c, b) && f < |a.flows| == |b.flows|
    requires SlotsFollowStarts(a, b) && Begun(a.flows[f]) <= Begun(b.flows[f])
    ensures LoadTold(c, f, FlowLoad(Minus(b.flows[f].outstanding, a.flows[f].running), a.flows[f].running), a, b)
  {
    CountsAreExact(c, a, f);
    CountsAreExact(c, b, f);
    SlotsWithinCounts(f, a.runs);
    hide Reachable, RunTotal;
  }

  predicate SameAccept(a: FlowState, b: FlowState) { b.accept == a.accept && b.sent == a.sent }

  predicate SameWorker(a: FlowState, b: FlowState) {
    b.worker == a.worker && b.guards == a.guards && b.taken == a.taken && b.started == a.started && b.open == a.open && a.queue <= b.queue
  }

  lemma StepUndisturbed(c: Config, t: Task, s: Sys, l: Label)
    requires Enabled(c, s, l) && !Mine(t, l)
    ensures Undisturbed(t, s, Next(c, s, l))
  {
    if l.Shutdown? {
    } else if FlowLabel(l) {
      FlowStepUndisturbed(c, t, s, l);
    } else {
      hide SetStatus, Unlock;
    }
  }

  lemma FlowStepUndisturbed(c: Config, t: Task, s: Sys, l: Label)
    requires Enabled(c, s, l) && !Mine(t, l) && FlowLabel(l)
    ensures Undisturbed(t, s, Next(c, s, l))
  {
    AfterIsMine(c, s, l);
    hide FlowAfter, FlowEnabled, HubAfter, LockedAfter, WaitingAfter, SettledBy, SameAccept, SameWorker;
    SameToItself();
  }

  lemma AfterIsMine(c: Config, s: Sys, l: Label)
    requires FlowLabel(l) && l.f < |s.flows| == |c.members| && FlowEnabled(c, s, l)
    ensures if AcceptLabel(l) then SameWorker(s.flows[l.f], FlowAfter(c, s, l)) else SameAccept(s.flows[l.f], FlowAfter(c, s, l))
  {
  }

  lemma SameToItself()
    ensures forall fl :: SameAccept(fl, fl) && SameWorker(fl, fl)
  {
  }

  lemma UndisturbedTrans(t: Task, a: Sys, b: Sys, d: Sys)
    requires Undisturbed(t, a, b) && Undisturbed(t, b, d)
    ensures Undisturbed(t, a, d)
  {
  }

  lemma UndisturbedSame(t: Task, s: Sys)
    ensures Undisturbed(t, s, s)
  {
  }

  lemma {:induction false} FlowsConfigured(c: Config, ls: seq<Label>)
    requires Exec(c, ls).At?
    ensures |Exec(c, ls).s.flows| == |c.members|
  {
    if ls != [] { FlowsConfigured(c, ls[..|ls| - 1]); }
  }

  lemma ReachableFlows(c: Config, s: Sys)
    requires Reachable(c, s)
    ensures |s.flows| == |c.members|
  {
    var ls :| Exec(c, ls) == At(s);
    FlowsConfigured(c, ls);
  }

  // ---- what a suspended wait waits for ----

  predicate StalledOnJob(s: Sys, f: Flow)
    requires f < |s.flows|
  {
    !s.shutdown && s.flows[f].worker.Ready? && s.flows[f].queue == []
  }

  predicate StalledOnLock(c: Config, s: Sys, f: Flow)
    requires f < |s.flows|
  {
    && !s.shutdown && Wants(c, s, f) && s.flows[f].worker.waiting && !Enabled(c, s, Grant(f))
    && Wanted(c, s, f) in c.pool && c.pool[Wanted(c, s, f)].Exclusive?
  }

  predicate StalledOnPermit(s: Sys, f: Flow)
    requires f < |s.flows|
  {
    !s.shutdown && s.flows[f].worker.Parked? && s.free == 0
  }

  predicate StalledOnGate(s: Sys, f: Flow)
    requires f < |s.flows|
  {
    s.flows[f].worker.Closing? && !s.flows[f].accept.NoAccept?
  }

  lemma SlotsSame(s: Sys)
    ensures SlotsFollowStarts(s, s) && BegunGrows(s, s)
  {
  }

  /** A worker that is stalled on one of these has no step of its own: only the others can get it going again. */
  lemma StalledIsStuck(c: Config, s: Sys, f: Flow, l: Label)
    requires f < |s.flows| == |c.members| && Mine(Working(f), l)
    requires StalledOnJob(s, f) || StalledOnLock(c, s, f) || StalledOnPermit(s, f) || StalledOnGate(s, f)
    ensures !Enabled(c, s, l)
  {
  }

  /** Each label is one task's at most, and none is a mere reader's. */
  lemma MineIsOne(t: Task, u: Task, l: Label)
    requires Mine(t, l) && Mine(u, l)
    ensures t == u && !t.Reading?
  {
  }

  /** What some labels come to when they are not a task's own: each is taken if it can be. */
  function Acted(c: Config, t: Task, s: Sys, labels: seq<Label>): Sys {
    if labels == [] then s
    else
      var init, l := Acted(c, t, s, labels[..|labels| - 1]), labels[|labels| - 1];
      if Enabled(c, init, l) && !Mine(t, l) then Next(c, init, l) else init
  }

  class ServeState {
    const config: Config
    var sys: Sys
    /** What the other tasks do each time this one lets them. */
    var schedule: seq<seq<Label>>

    constructor (config: Config, schedule: seq<seq<Label>>)
      ensures this.config == config && sys == Init(config) && Valid()
    {
      this.config := config;
      this.schedule := schedule;
      sys := Init(config);
      new;
      assert Exec(config, []) == At(sys);
    }

    ghost predicate Valid()
      reads this
    {
      Reachable(config, sys) && |sys.flows| == |config.members|
    }

    /** Other tasks run; what is not theirs to do, or not possible, is passed over. */
    method Others(t: Task)
      requires Valid()
      modifies this
      ensures Valid() && Undisturbed(t, old(sys), sys) && SlotsFollowStarts(old(sys), sys) && BegunGrows(old(sys), sys)
      ensures |schedule| <= |old(schedule)| && (old(schedule) != [] ==> |schedule| < |old(schedule)|)
      ensures |schedule| == |old(schedule)| ==> sys == old(sys)
      ensures old(schedule) != [] ==> schedule == old(schedule)[1..] && sys == Acted(config, t, old(sys), old(schedule)[0])
    {
      hide Next, Enabled, Undisturbed, SlotsFollowStarts, BegunGrows, Mine;
      UndisturbedSame(t, sys);
      SlotsSame(sys);
      if schedule == [] { return; }
      var labels := schedule[0];
      schedule := schedule[1..];
      for i := 0 to |labels|
        invariant Valid() && Undisturbed(t, old(sys), sys) && SlotsFollowStarts(old(sys), sys) && BegunGrows(old(sys), sys)
        invariant schedule == old(schedule)[1..] && sys == Acted(config, t, old(sys), labels[..i])
      {
        assert labels[..i + 1][..i] == labels[..i];
        ghost var was := sys;
        Other(t, labels[i]);
        UndisturbedTrans(t, old(sys), was, sys);
        SlotsTrans(old(sys), was, sys);
        BegunTrans(old(sys), was, sys);
      }
      assert labels[..|labels|] == labels;
    }

    /** One step of another task, if it is one and can be taken. */
    method Other(t: Task, l: Label)
      requires Valid()
      modifies this`sys
      ensures Valid() && Undisturbed(t, old(sys), sys) && SlotsFollowStarts(old(sys), sys) && BegunGrows(old(sys), sys)
      ensures sys == if Enabled(config, old(sys), l) && !Mine(t, l) then Next(config, old(sys), l) else old(sys)
    {
      UndisturbedSame(t, sys);
      SlotsSame(sys);
      hide Next, Enabled, Undisturbed, SlotsFollowStarts, BegunGrows, Mine;
      if Enabled(config, sys, l) && !Mine(t, l) {
        StepUndisturbed(config, t, sys, l);
        StepSlots(config, sys, l);
        StepBegun(config, sys, l);
        ReachableNext(config, sys, l);
        ReachableFlows(config, Next(config, sys, l));
        sys := Next(config, sys, l);
      }
    }

    /** The flow's own record is rewritten. */
    method PutFlow(f: Flow, fl: FlowState)
      requires f < |sys.flows|
      modifies this`sys
      ensures sys == old(sys).(flows := old(sys).flows[f := fl])
    {
      sys := sys.(flows := sys.flows[f := fl]);
    }

    /** `admit`: under the interlock reserve a slot, take a place in line, register, send. A position is what the flow
        holds at the moment it is taken; a full queue is reported with the load read at two moments. */
    method Admit(f: Flow) returns (r: Admission, ghost counted: Sys, ghost later: Sys)
      requires Valid() && f < |config.members| && sys.flows[f].accept.NoAccept?
      modifies this
      ensures Valid() && sys.flows[f].accept.NoAccept?
      ensures r.ShuttingDown? <==> !old(sys).flows[f].open
      ensures r.QueueFull? <==> old(sys).flows[f].open && |old(sys).flows[f].queue| >= QUEUE_CAP
      ensures r.ShuttingDown? ==> sys == old(sys)
      ensures r.QueueFull? ==> Undisturbed(Accepting(f), old(sys), sys)
      ensures r.QueueFull? ==> exists running :: LoadTold(config, f, FlowLoad(r.queued, running), counted, later)
      ensures r.Accepted? ==> sys.flows[f].sent == old(sys).flows[f].sent + [r.id] && r.id < |sys.home| && sys.home[r.id] == f
      ensures r.Accepted? ==> Reachable(config, counted) && f < |counted.flows|
      ensures r.Accepted? ==> r.position == Waiting(counted.flows[f]) + RunTotal(Slots(f), counted.runs)
    {
      hide Reachable, LoadTold, Undisturbed;
      counted, later := sys, sys;
      if !sys.flows[f].open { return ShuttingDown, counted, later; }
      if |sys.flows[f].queue| >= QUEUE_CAP {
        var loads, at := FlowLoads(Accepting(f));
        counted, later := at[f].0, at[f].1;
        assert LoadTold(config, f, FlowLoad(loads[f].queued, loads[f].running), counted, later);
        AcceptKept(f, old(sys), sys);
        return QueueFull(loads[f].queued), counted, later;
      }
      Reserve(f);
      AcceptDisturbance(f);
      counted := sys;
      var position := TakePlace(f);
      AcceptDisturbance(f);
      var id := RegisterTrigger(f);
      AcceptDisturbance(f);
      SendJob(f);
      return Accepted(id, position), counted, later;
    }

    lemma AcceptKept(f: Flow, s: Sys, n: Sys)
      requires Undisturbed(Accepting(f), s, n) && f < |s.flows|
      ensures |n.flows| == |s.flows| && SameAccept(s.flows[f], n.flows[f]) && s.home <= n.home
    {
    }

    /** The others, while an accept is under way. */
    method AcceptDisturbance(f: Flow)
      requires Valid() && f < |config.members|
      modifies this
      ensures Valid() && SameAccept(old(sys).flows[f], sys.flows[f]) && old(sys).home <= sys.home
      ensures old(schedule) != [] ==> |schedule| < |old(schedule)|
    {
      hide Undisturbed, Reachable;
      Others(Accepting(f));
      AcceptKept(f, old(sys), sys);
    }

    method Reserve(f: Flow)
      requires Valid() && f < |config.members| && Enabled(config, sys, Label.Admit(f))
      modifies this`sys
      ensures Valid() && sys == Next(config, old(sys), Label.Admit(f))
      ensures sys.flows[f].accept == Reserved && sys.flows[f].sent == old(sys).flows[f].sent
    {
      ReachableNext(config, sys, Label.Admit(f));
      PutFlow(f, sys.flows[f].(accept := Reserved));
    }

    method TakePlace(f: Flow) returns (position: nat)
      requires Valid() && f < |config.members| && sys.flows[f].accept.Reserved?
      modifies this`sys
      ensures Valid() && sys == Next(config, old(sys), Count(f))
      ensures sys.flows[f].accept == Counted(position) && sys.flows[f].sent == old(sys).flows[f].sent
      ensures position == Waiting(old(sys).flows[f]) + RunTotal(Slots(f), old(sys).runs)
    {
      hide Reachable, Waiting, RunTotal;
      position := sys.flows[f].outstanding;
      assert position == Waiting(sys.flows[f]) + RunTotal(Slots(f), sys.runs) by { CountsAreExact(config, sys, f); }
      ReachableNext(config, sys, Count(f));
      PutFlow(f, sys.flows[f].(outstanding := position + 1, accept := Counted(position)));
      assert sys.settled == old(sys).settled + [];
    }

    method RegisterTrigger(f: Flow) returns (id: Id)
      requires Valid() && f < |config.members| && sys.flows[f].accept.Counted?
      modifies this`sys
      ensures Valid() && sys == Next(config, old(sys), Register(f))
      ensures sys.flows[f].accept == Registered(id) && sys.flows[f].sent == old(sys).flows[f].sent
      ensures id < |sys.home| && sys.home[id] == f
    {
      id := |sys.hub|;
      HubAndHome(config, sys);
      ReachableNext(config, sys, Register(f));
      var fl := sys.flows[f];
      sys := sys.(hub := sys.hub + [Queued(fl.accept.position)], home := sys.home + [f],
                  flows := sys.flows[f := fl.(accept := Registered(id))]);
      assert sys.settled == old(sys).settled + [];
    }

    method SendJob(f: Flow)
      requires Valid() && f < |config.members| && sys.flows[f].accept.Registered?
      modifies this`sys
      ensures Valid() && sys == Next(config, old(sys), Send(f))
      ensures sys.flows[f].accept == NoAccept && sys.flows[f].sent == old(sys).flows[f].sent + [old(sys).flows[f].accept.id]
    {
      ReachableNext(config, sys, Send(f));
      var fl := sys.flows[f];
      PutFlow(f, fl.(accept := NoAccept, queue := fl.queue + [fl.accept.id], sent := fl.sent + [fl.accept.id]));
    }

    /** `flow_loads`: of every flow its run count, and then, others having acted, what it holds minus that. */
    method FlowLoads(t: Task) returns (loads: seq<FlowLoad>, ghost at: seq<(Sys, Sys)>)
      requires Valid()
      modifies this
      ensures Valid() && Undisturbed(t, old(sys), sys) && |loads| == |at| == |config.members|
      ensures forall f :: 0 <= f < |loads| ==> LoadTold(config, f, loads[f], at[f].0, at[f].1)
    {
      hide Undisturbed, LoadTold, SlotsFollowStarts, Reachable;
      loads, at := [], [];
      UndisturbedSame(t, sys);
      for f := 0 to |config.members|
        invariant Valid() && Undisturbed(t, old(sys), sys) && |loads| == |at| == f
        invariant forall g :: 0 <= g < f ==> LoadTold(config, g, loads[g], at[g].0, at[g].1)
      {
        var load, a, b := ReadLoad(t, f);
        UndisturbedTrans(t, old(sys), a, b);
        loads, at := loads + [load], at + [(a, b)];
      }
    }

    method ReadLoad(t: Task, f: Flow) returns (load: FlowLoad, ghost a: Sys, ghost b: Sys)
      requires Valid() && f < |config.members|
      modifies this
      ensures Valid() && a == old(sys) && b == sys && Undisturbed(t, a, b) && LoadTold(config, f, load, a, b)
    {
      hide Undisturbed, LoadTold, Reachable;
      a := sys;
      var running := sys.flows[f].running;
      Others(t);
      b := sys;
      LoadIsTold(config, f, a, b);
      load := FlowLoad(Minus(sys.flows[f].outstanding, running), running);
    }

    // ---- the worker ----

    /** One step of the worker on a lock, the semaphore or the channel. */
    method Take(l: Label)
      requires Valid() && Enabled(config, sys, l) && FlowLabel(l)
      modifies this`sys
      ensures Valid() && sys == FlowNext(config, old(sys), l)
    {
      ReachableNext(config, sys, l);
      sys := FlowNext(config, sys, l);
    }

    /** The others, while the worker is between two steps of its own. */
    method Disturbance(f: Flow)
      requires Valid() && f < |config.members|
      modifies this
      ensures Valid() && SameWorker(old(sys).flows[f], sys.flows[f]) && (old(sys).shutdown ==> sys.shutdown)
      ensures old(sys).settled <= sys.settled && |schedule| <= |old(schedule)|
      ensures |schedule| == |old(schedule)| ==> sys == old(sys)
    {
      hide Reachable;
      Others(Working(f));
    }

    /** The biased select on shutdown and the queue: each poll looks at the flag before the queue, so a worker that is told
        to stop takes nothing any more. */
    method AwaitJob(f: Flow) returns (r: Pass, ghost looked: Sys)
      requires Valid() && f < |config.members| && sys.flows[f].worker.Ready?
      modifies this
      ensures Valid() && |schedule| <= |old(schedule)| && old(sys).settled <= sys.settled
      ensures (|schedule| == |old(schedule)| && r.Done?) ==> |sys.flows[f].queue| < |old(sys).flows[f].queue|
      ensures var fl := sys.flows[f];
        && fl.started == old(sys).flows[f].started && fl.guards == old(sys).flows[f].guards
        && (!r.Done? ==> fl.taken == old(sys).flows[f].taken)
        && (r.Done? ==> fl.worker.InHand? && fl.taken == old(sys).flows[f].taken + [fl.worker.job])
        && (r.Tripped? ==> fl.worker.Closing? && sys.shutdown)
      ensures old(sys).shutdown ==> r.Tripped?
      ensures r.Done? ==> !looked.shutdown && Undisturbed(Working(f), old(sys), looked)
      ensures !old(sys).shutdown && old(sys).flows[f].queue != [] ==> r.Done?
      ensures r.Suspended? ==> schedule == [] && StalledOnJob(sys, f)
    {
      UndisturbedSame(Working(f), sys);
      while true
        invariant Valid() && Undisturbed(Working(f), old(sys), sys) && |schedule| <= |old(schedule)|
        invariant |schedule| == |old(schedule)| ==> sys == old(sys)
        invariant !old(sys).shutdown && old(sys).flows[f].queue != [] ==> sys == old(sys)
        decreases |schedule|
      {
        looked := sys;
        if sys.shutdown {
          Take(Label.Trip(f));
          return Tripped, looked;
        }
        var last := schedule == [];
        Others(Working(f));
        UndisturbedTrans(Working(f), old(sys), looked, sys);
        if sys.flows[f].queue != [] {
          Take(Dequeue(f));
          return Done, looked;
        }
        if last { return Suspended, looked; }
      }
    }

    /** `AgentLocks::acquire`, raced against shutdown, which is looked at first: the members in sorted order, each awaited before the next. */
    method Acquire(f: Flow) returns (r: Pass)
      requires Valid() && f < |config.members| && sys.flows[f].worker.Locking?
      requires sys.flows[f].worker.at == 0 && !sys.flows[f].worker.waiting && sys.flows[f].guards == {}
      modifies this
      ensures Valid() && |schedule| <= |old(schedule)| && old(sys).settled <= sys.settled
      ensures |schedule| == |old(schedule)| ==> sys.flows[f].queue == old(sys).flows[f].queue
      ensures var fl, job := sys.flows[f], old(sys).flows[f].worker.job;
        && fl.started == old(sys).flows[f].started && fl.taken == old(sys).flows[f].taken
        && (r.Done? ==> fl.worker == Parked(job) && fl.guards == Pooled(config, config.members[f]))
        && (r.Tripped? ==> fl.worker == Abandoning(job, 0) && sys.shutdown)
      ensures old(sys).shutdown ==> r.Tripped?
      ensures r.Suspended? ==> schedule == [] && StalledOnLock(config, sys, f)
    {
      hide Reachable, Pooled, StalledOnLock;
      Disturbance(f);
      if sys.shutdown {
        Trip(f);
        return Tripped;
      }
      r := LockMembers(f);
    }

    /** The members in sorted order, each awaited before the next. */
    method LockMembers(f: Flow) returns (r: Pass)
      requires Valid() && f < |config.members| && sys.flows[f].worker.Locking?
      requires sys.flows[f].worker.at == 0 && !sys.flows[f].worker.waiting && sys.flows[f].guards == {}
      modifies this
      ensures Valid() && |schedule| <= |old(schedule)| && old(sys).settled <= sys.settled
      ensures |schedule| == |old(schedule)| ==> sys.flows[f].queue == old(sys).flows[f].queue
      ensures var fl, job := sys.flows[f], old(sys).flows[f].worker.job;
        && fl.started == old(sys).flows[f].started && fl.taken == old(sys).flows[f].taken
        && (r.Done? ==> fl.worker == Parked(job) && fl.guards == Pooled(config, config.members[f]))
        && (r.Tripped? ==> fl.worker == Abandoning(job, 0) && sys.shutdown)
      ensures r.Suspended? ==> schedule == [] && StalledOnLock(config, sys, f)
    {
      hide Reachable, SetStatus, Unlock, HandOver, Without, StalledOnLock, Waiters, RunEnabled, RunNext;
      var job := sys.flows[f].worker.job;
      var members := config.members[f];
      assert Pooled(config, members[..0]) == {};
      for at := 0 to |members|
        invariant Valid() && |schedule| <= |old(schedule)| && old(sys).settled <= sys.settled
        invariant |schedule| == |old(schedule)| ==> sys.flows[f].queue == old(sys).flows[f].queue
        invariant sys.flows[f].worker == Locking(job, at, false) && sys.flows[f].guards == Pooled(config, members[..at])
        invariant sys.flows[f].started == old(sys).flows[f].started && sys.flows[f].taken == old(sys).flows[f].taken
      {
        PooledNext(config, members, at);
        Disturbance(f);
        if members[at] !in config.pool {
          Take(Skip(f));
        } else if config.pool[members[at]].Shared? {
          Take(ReadLock(f));
        } else {
          r := AwaitWriteLock(f);
          if !r.Done? { return; }
        }
      }
      assert members[..|members|] == members;
      Disturbance(f);
      Take(Locked(f));
      return Done;
    }

    /** `write_owned().await`: in line behind the other writers, and out of it again when shutdown comes first. */
    method AwaitWriteLock(f: Flow) returns (r: Pass)
      requires Valid() && f < |config.members| && Enabled(config, sys, Request(f))
      modifies this
      ensures Valid() && |schedule| <= |old(schedule)| && old(sys).settled <= sys.settled
      ensures |schedule| == |old(schedule)| ==> sys.flows[f].queue == old(sys).flows[f].queue
      ensures var a, b := old(sys).flows[f], sys.flows[f];
        && b.started == a.started && b.taken == a.taken
        && (r.Done? ==> b.worker == Locking(a.worker.job, a.worker.at + 1, false) && b.guards == a.guards + {config.members[f][a.worker.at]})
        && (r.Tripped? ==> b.worker == Abandoning(a.worker.job, 0) && sys.shutdown)
      ensures r.Suspended? ==> schedule == [] && StalledOnLock(config, sys, f)
      ensures var a := old(sys).flows[f];
        !old(sys).shutdown && Wanted(config, old(sys), f) !in old(sys).locked && Waiters(old(sys), Wanted(config, old(sys), f)) == [] ==> r.Done?
    {
      hide Reachable, FlowNext;
      Ask(f);
      ghost var asked := sys;
      UndisturbedSame(Working(f), sys);
      while true
        invariant Valid() && Undisturbed(Working(f), asked, sys) && |schedule| <= |old(schedule)|
        invariant |schedule| == |old(schedule)| ==> sys == asked
        invariant !asked.shutdown && Enabled(config, asked, Label.Grant(f)) ==> sys == asked
        decreases |schedule|
      {
        if sys.shutdown {
          Trip(f);
          return Tripped;
        }
        if Enabled(config, sys, Label.Grant(f)) {
          Grant(f);
          return Done;
        }
        if schedule == [] { return Suspended; }
        ghost var before := sys;
        Others(Working(f));
        UndisturbedTrans(Working(f), asked, before, sys);
      }
    }

    method Ask(f: Flow)
      requires Valid() && f < |config.members| && Enabled(config, sys, Request(f))
      modifies this`sys
      ensures Valid() && sys.settled == old(sys).settled && sys.shutdown == old(sys).shutdown
      ensures Wanted(config, old(sys), f) !in old(sys).locked && Waiters(old(sys), Wanted(config, old(sys), f)) == [] ==>
        Enabled(config, sys, Label.Grant(f))
      ensures var a := old(sys).flows[f]; sys.flows[f] == a.(worker := Locking(a.worker.job, a.worker.at, true))
    {
      hide Reachable;
      Take(Request(f));
    }

    method Grant(f: Flow)
      requires Valid() && f < |config.members| && Enabled(config, sys, Label.Grant(f))
      modifies this`sys
      ensures Valid() && sys.settled == old(sys).settled
      ensures var a := old(sys).flows[f];
        && a.worker.Locking? && a.worker.at < |config.members[f]|
        && sys.flows[f] == a.(worker := Locking(a.worker.job, a.worker.at + 1, false), guards := a.guards + {config.members[f][a.worker.at]})
    {
      hide Reachable;
      Take(Label.Grant(f));
    }

    /** Shutdown wins the select: the wait is dropped, with its place in any line. */
    method Trip(f: Flow)
      requires Valid() && f < |config.members| && sys.shutdown && (sys.flows[f].worker.Locking? || sys.flows[f].worker.Parked?)
      modifies this`sys
      ensures Valid() && sys.settled == old(sys).settled && sys.shutdown
      ensures var a := old(sys).flows[f]; sys.flows[f] == a.(worker := Abandoning(a.worker.job, 0))
    {
      hide Reachable, Without;
      Take(Label.Trip(f));
    }

    /** The permit, raced against shutdown. */
    method AwaitPermit(f: Flow) returns (r: Pass)
      requires Valid() && f < |config.members| && sys.flows[f].worker.Parked?
      modifies this
      ensures Valid() && |schedule| <= |old(schedule)| && old(sys).settled <= sys.settled
      ensures |schedule| == |old(schedule)| ==> sys.flows[f].queue == old(sys).flows[f].queue
      ensures var a, b := old(sys).flows[f], sys.flows[f];
        && b.started == a.started && b.taken == a.taken
        && (r.Done? ==> b.worker == Granted(a.worker.job) && b.guards == a.guards)
        && (r.Tripped? ==> b.worker == Abandoning(a.worker.job, 0) && sys.shutdown)
      ensures old(sys).shutdown ==> r.Tripped?
      ensures !old(sys).shutdown && old(sys).free > 0 ==> r.Done?
      ensures r.Suspended? ==> schedule == [] && StalledOnPermit(sys, f)
    {
      UndisturbedSame(Working(f), sys);
      while true
        invariant Valid() && Undisturbed(Working(f), old(sys), sys) && |schedule| <= |old(schedule)|
        invariant |schedule| == |old(schedule)| ==> sys == old(sys)
        invariant !old(sys).shutdown && old(sys).free > 0 ==> sys == old(sys)
        decreases |schedule|
      {
        if sys.shutdown {
          Trip(f);
          return Tripped;
        }
        if sys.free > 0 {
          Take(TakePermit(f));
          return Done;
        }
        if schedule == [] { return Suspended; }
        ghost var before := sys;
        Others(Working(f));
        UndisturbedTrans(Working(f), old(sys), before, sys);
      }
    }

    /** The flag can be set between the dequeue and here. */
    method CheckFlag(f: Flow) returns (r: Pass)
      requires Valid() && f < |config.members| && sys.flows[f].worker.InHand?
      modifies this`sys
      ensures Valid() && sys.flows[f].queue == old(sys).flows[f].queue && sys.settled == old(sys).settled
      ensures r == if old(sys).shutdown then Tripped else Done
      ensures var a, b := old(sys).flows[f], sys.flows[f];
        && b.started == a.started && b.taken == a.taken && b.guards == a.guards
        && b.worker == if r.Done? then Locking(a.worker.job, 0, false) else Abandoning(a.worker.job, 0)
    {
      r := if sys.shutdown then Tripped else Done;
      Take(Check(f));
    }

    /** `hub.begin` and `spawn_run`: the record, the run count, then the task with the guards and the permit moved into it. */
    method SpawnRun(f: Flow)
      requires Valid() && f < |config.members| && sys.flows[f].worker.Granted?
      modifies this
      ensures Valid() && |schedule| <= |old(schedule)| && old(sys).settled <= sys.settled
      ensures |schedule| == |old(schedule)| ==> sys.flows[f].queue == old(sys).flows[f].queue
      ensures var a, b := old(sys).flows[f], sys.flows[f];
        b.worker.Ready? && b.started == a.started + [a.worker.job] && b.taken == a.taken
      ensures sys.runs != [] && sys.runs[|sys.runs| - 1] == RunTask(f, old(sys).flows[f].worker.job, Live, 0, true, old(sys).flows[f].guards)
    {
      hide Reachable, SetStatus;
      Take(Begin(f));
      Disturbance(f);
      Take(Commit(f));
      Disturbance(f);
      Detach(f);
    }

    /** The task gets the guards and the permit; the worker keeps neither. */
    method Detach(f: Flow)
      requires Valid() && f < |config.members| && sys.flows[f].worker.Committed?
      modifies this`sys
      ensures Valid() && sys.settled == old(sys).settled
      ensures var a := old(sys).flows[f];
        && sys.flows[f] == a.(worker := Ready, guards := {}, started := a.started + [a.worker.job])
        && sys.runs == old(sys).runs + [RunTask(f, a.worker.job, Live, 0, true, a.guards)]
    {
      hide Reachable, HandOver;
      Take(Spawn(f));
    }

    /** `abandon`, and the locks given back: the trigger is settled although it never ran. */
    method Abandon(f: Flow)
      requires Valid() && f < |config.members| && sys.flows[f].worker.Abandoning? && sys.flows[f].worker.stage == 0
      modifies this
      ensures Valid() && |schedule| <= |old(schedule)| && old(sys).settled <= sys.settled && old(sys).flows[f].worker.job in sys.settled
      ensures sys.flows[f].worker.Closing? && sys.flows[f].guards == {}
      ensures sys.flows[f].started == old(sys).flows[f].started && sys.flows[f].taken == old(sys).flows[f].taken
    {
      hide Reachable, FlowNext, Enabled;
      var job := sys.flows[f].worker.job;
      SettleQueued(f);
      while sys.flows[f].guards != {}
        invariant Valid() && |schedule| <= |old(schedule)|
        invariant sys.flows[f].worker == Abandoning(job, 2) && old(sys).settled <= sys.settled && job in sys.settled
        invariant sys.flows[f].started == old(sys).flows[f].started && sys.flows[f].taken == old(sys).flows[f].taken
        decreases |sys.flows[f].guards|
      {
        var a :| a in sys.flows[f].guards;
        Disturbance(f);
        DropLock(f, a);
      }
      Disturbance(f);
      LeaveLoop(f);
    }

    /** `settle_queued` for the job in hand: its slot, then its record. */
    method SettleQueued(f: Flow)
      requires Valid() && f < |config.members| && sys.flows[f].worker.Abandoning? && sys.flows[f].worker.stage == 0
      modifies this
      ensures Valid() && |schedule| <= |old(schedule)| && old(sys).settled <= sys.settled && old(sys).flows[f].worker.job in sys.settled
      ensures sys.flows[f].worker == Abandoning(old(sys).flows[f].worker.job, 2)
      ensures sys.flows[f].started == old(sys).flows[f].started && sys.flows[f].taken == old(sys).flows[f].taken
    {
      hide Reachable, SetStatus;
      Take(ReleaseSlot(f));
      Others(Working(f));
      Take(FinishQueued(f));
      assert sys.settled[|sys.settled| - 1] == old(sys).flows[f].worker.job;
    }

    method DropLock(f: Flow, a: Agent)
      requires Valid() && f < |config.members| && sys.flows[f].worker.Abandoning? && a in sys.flows[f].guards
      modifies this`sys
      ensures Valid() && sys.flows[f] == old(sys).flows[f].(guards := old(sys).flows[f].guards - {a}) && sys.settled == old(sys).settled
    {
      hide Reachable, Unlock;
      Take(DropGuard(f, a));
    }

    method LeaveLoop(f: Flow)
      requires Valid() && f < |config.members| && sys.flows[f].worker.Abandoning?
      requires sys.flows[f].worker.stage >= 2 && sys.flows[f].guards == {}
      modifies this`sys
      ensures Valid() && sys.flows[f] == old(sys).flows[f].(worker := Closing) && sys.settled == old(sys).settled
    {
      hide Reachable;
      Take(Leave(f));
    }

    /** `close_queue`: gate shut and queue drained in one critical section, then every drained trigger settled in order. */
    method CloseQueue(f: Flow) returns (r: Pass)
      requires Valid() && f < |config.members| && sys.flows[f].worker.Closing?
      modifies this
      ensures Valid() && old(sys).settled <= sys.settled
      ensures sys.flows[f].started == old(sys).flows[f].started
      ensures r.Done? ==> sys.flows[f].worker.Exited? && !sys.flows[f].open && old(sys).flows[f].taken <= sys.flows[f].taken
      ensures r.Done? ==> SettledFrom(|old(sys).flows[f].taken|, sys.flows[f].taken, sys.settled)
      ensures old(sys).flows[f].accept.NoAccept? ==> r.Done?
      ensures !r.Done? ==> r.Suspended? && schedule == [] && StalledOnGate(sys, f)
    {
      hide Reachable, FlowNext, Enabled;
      UndisturbedSame(Working(f), sys);
      while !sys.flows[f].accept.NoAccept?
        invariant Valid() && Undisturbed(Working(f), old(sys), sys)
        invariant old(sys).flows[f].accept.NoAccept? ==> sys == old(sys)
        decreases |schedule|
      {
        if schedule == [] { return Suspended; }
        ghost var before := sys;
        Others(Working(f));
        UndisturbedTrans(Working(f), old(sys), before, sys);
      }
      var drained := Shut(f);
      ghost var taken := sys.flows[f].taken;
      for k := 0 to |drained|
        invariant Valid() && old(sys).settled <= sys.settled && SettledAll(drained[..k], sys.settled)
        invariant sys.flows[f].worker == Draining(drained[k..], false) && sys.flows[f].taken == taken && !sys.flows[f].open
        invariant sys.flows[f].started == old(sys).flows[f].started
      {
        ghost var before := sys.settled;
        Disturbance(f);
        SettleDrained(f);
        assert drained[k..][1..] == drained[k + 1..] && drained[k..][0] == drained[k];
        SettledOne(drained, k, before, sys.settled);
      }
      assert drained[..|drained|] == drained && drained[|drained|..] == [];
      SettledQueue(old(sys).flows[f].taken, drained, sys.settled);
      Disturbance(f);
      LeaveDrained(f);
      return Done;
    }

    /** The flag flip and the drain, in one critical section. */
    method Shut(f: Flow) returns (drained: seq<Id>)
      requires Valid() && f < |config.members| && sys.flows[f].worker.Closing? && sys.flows[f].accept.NoAccept?
      modifies this`sys
      ensures Valid() && drained == old(sys).flows[f].queue && sys.settled == old(sys).settled
      ensures var a, b := old(sys).flows[f], sys.flows[f];
        b.worker == Draining(drained, false) && b.taken == a.taken + drained && !b.open && b.started == a.started
    {
      hide Reachable;
      drained := sys.flows[f].queue;
      Take(Close(f));
    }

    method SettleDrained(f: Flow)
      requires Valid() && f < |config.members| && sys.flows[f].worker.Draining?
      requires sys.flows[f].worker.left != [] && !sys.flows[f].worker.released
      modifies this
      ensures Valid() && old(sys).settled <= sys.settled && old(sys).flows[f].worker.left[0] in sys.settled
      ensures var a, b := old(sys).flows[f], sys.flows[f];
        b.worker == Draining(a.worker.left[1..], false) && b.taken == a.taken && b.started == a.started && b.open == a.open
    {
      hide Reachable, SetStatus;
      Take(DrainRelease(f));
      Others(Working(f));
      Take(DrainFinish(f));
      assert sys.settled[|sys.settled| - 1] == old(sys).flows[f].worker.left[0];
    }

    method LeaveDrained(f: Flow)
      requires Valid() && f < |config.members| && sys.flows[f].worker.Draining? && sys.flows[f].worker.left == []
      modifies this`sys
      ensures Valid() && sys.flows[f] == old(sys).flows[f].(worker := Exited) && sys.settled == old(sys).settled
    {
      hide Reachable;
      Take(Exit(f));
    }

    /** `run_flow_worker`, for as long as the schedule goes. */
    method RunFlowWorker(f: Flow) returns (r: Pass)
      requires Valid() && f < |config.members| && sys.flows[f].worker.Ready?
      modifies this
      ensures Valid() && old(sys).settled <= sys.settled && old(sys).flows[f].started <= sys.flows[f].started
      ensures r.Done? ==> sys.flows[f].worker.Exited? && !sys.flows[f].open
      ensures r.Done? ==> SettledFrom(|sys.flows[f].started|, sys.flows[f].taken, sys.settled)
      ensures !r.Done? ==> r.Suspended? && schedule == []
      ensures !r.Done? ==> StalledOnJob(sys, f) || StalledOnLock(config, sys, f) || StalledOnPermit(sys, f) || StalledOnGate(sys, f)
    {
      hide Undisturbed, Reachable, Enabled, FlowNext, Pooled, StalledOnJob, StalledOnLock, StalledOnPermit, StalledOnGate;
      TakenIsStarted(config, sys, f);
      while true
        invariant Valid() && sys.flows[f].worker.Ready? && sys.flows[f].taken == sys.flows[f].started
        invariant old(sys).settled <= sys.settled && old(sys).flows[f].started <= sys.flows[f].started
        decreases |schedule|, |sys.flows[f].queue|
      {
        r := Round(f);
        if r.Suspended? { return; }
        if r.Tripped? { break; }
      }
      ghost var taken, settled := sys.flows[f].taken, sys.settled;
      r := CloseQueue(f);
      if r.Done? { SettledBoth(sys.flows[f].started, taken, settled, sys.flows[f].taken, sys.settled); }
    }

    /** One round of the worker's loop; on the way out the job it had in hand, if any, is settled. */
    method Round(f: Flow) returns (r: Pass)
      requires Valid() && f < |config.members| && sys.flows[f].worker.Ready? && sys.flows[f].taken == sys.flows[f].started
      modifies this
      ensures Valid() && |schedule| <= |old(schedule)| && old(sys).settled <= sys.settled
      ensures var a, b := old(sys).flows[f], sys.flows[f];
        && (|schedule| == |old(schedule)| && r.Done? ==> |b.queue| < |a.queue|)
        && (r.Done? ==> b.worker.Ready? && b.taken == b.started && |b.started| == |a.started| + 1 && a.started <= b.started)
        && (r.Tripped? ==> b.worker.Closing? && b.started == a.started && SettledFrom(|b.started|, b.taken, sys.settled))
        && (r.Suspended? ==> b.started == a.started)
      ensures old(sys).shutdown ==> r.Tripped?
      ensures r.Suspended? ==> schedule == [] && (StalledOnJob(sys, f) || StalledOnLock(config, sys, f) || StalledOnPermit(sys, f))
    {
      hide Undisturbed, Reachable, Enabled, FlowNext, Pooled, StalledOnJob, StalledOnLock, StalledOnPermit;
      ghost var looked: Sys;
      r, looked := AwaitJob(f);
      if !r.Done? { return; }
      Disturbance(f);
      r := CheckFlag(f);
      if r.Done? {
        TakenIsStarted(config, sys, f);
        r := Acquire(f);
        if r.Suspended? { return; }
        if r.Done? {
          Disturbance(f);
          r := AwaitPermit(f);
          if r.Suspended? { return; }
        }
      }
      Disturbance(f);
      if r.Done? { SpawnRun(f); } else { Abandon(f); }
    }

    // ---- a run's settlement ----

    /** `settle_running`: the queue slot, then the run count, then the record; a and b are the states in which the second
        and the third are about to happen. */
    method SettleRunning(r: nat) returns (ghost a: Sys, ghost b: Sys)
      requires Valid() && r < |sys.runs| && !sys.runs[r].task.Live? && sys.runs[r].settle == 0
      modifies this
      ensures Valid() && old(sys).settled <= sys.settled && r < |sys.runs|
      ensures sys.runs[r] == old(sys).runs[r].(settle := 3) && sys.runs[r].id in sys.settled
      ensures Undisturbed(Settling(r), RunNext(old(sys), SettleSlot(r)), a) && r < |a.runs| && RunEnabled(a, SettleCount(r))
      ensures Undisturbed(Settling(r), RunNext(a, SettleCount(r)), b) && r < |b.runs| && RunEnabled(b, SettleHub(r))
      ensures sys == RunNext(b, SettleHub(r))
    {
      hide Reachable, SetStatus;
      TakeRun(SettleSlot(r));
      Others(Settling(r));
      a := sys;
      TakeRun(SettleCount(r));
      Others(Settling(r));
      b := sys;
      TakeRun(SettleHub(r));
      assert sys.settled[|sys.settled| - 1] == sys.runs[r].id;
    }

    method TakeRun(l: Label)
      requires Valid() && Enabled(config, sys, l) && !FlowLabel(l) && !l.Shutdown?
      modifies this`sys
      ensures Valid() && sys == RunNext(old(sys), l)
    {
      ReachableNext(config, sys, l);
      ReachableFlows(config, RunNext(sys, l));
      sys := RunNext(sys, l);
    }
  }

  predicate SettledAll(ids: seq<Id>, settled: seq<Id>) { forall i :: 0 <= i < |ids| ==> ids[i] in settled }

  predicate SettledFrom(from: nat, ids: seq<Id>, settled: seq<Id>) { forall i :: from <= i < |ids| ==> ids[i] in settled }

  lemma SettledOne(ids: seq<Id>, k: nat, before: seq<Id>, settled: seq<Id>)
    requires k < |ids| && SettledAll(ids[..k], before) && before <= settled && ids[k] in settled
    ensures SettledAll(ids[..k + 1], settled)
  {
    forall i | 0 <= i < k ensures ids[i] in settled {
      assert ids[i] == ids[..k][i];
      var j :| 0 <= j < |before| && before[j] == ids[i];
      assert settled[j] == ids[i];
    }
  }

  lemma SettledQueue(taken: seq<Id>, drained: seq<Id>, settled: seq<Id>)
    requires SettledAll(drained, settled)
    ensures SettledFrom(|taken|, taken + drained, settled)
  {
  }

  /** The job in hand settled before the queue was closed stays settled after. */
  lemma SettledBoth(started: seq<Id>, before: seq<Id>, earlier: seq<Id>, taken: seq<Id>, settled: seq<Id>)
    requires SettledFrom(|started|, before, earlier) && before <= taken && earlier <= settled && SettledFrom(|before|, taken, settled)
    ensures SettledFrom(|started|, taken, settled)
  {
    forall i | |started| <= i < |before| ensures taken[i] in settled {
      var j :| 0 <= j < |earlier| && earlier[j] == before[i];
      assert settled[j] == before[i];
    }
  }

  lemma TakenIsStarted(c: Config, s: Sys, f: Flow)
    requires Reachable(c, s) && f < |s.flows|
    ensures s.flows[f].worker.Ready? ==> s.flows[f].taken == s.flows[f].started
    ensures s.flows[f].worker.Locking? && s.flows[f].worker.at == 0 ==> s.flows[f].guards == {}
  {
    ReachableInv(c, s);
    assert FlowLocal(s.flows[f]);
    assert FlowPassed(c.members[f], s.flows[f]) by { assert Passed(c, s); }
  }

  /** The members that have a lock. */
  function Pooled(c: Config, ms: seq<Agent>): set<Agent> { set a | a in ms && a in c.pool }

  lemma PooledNext(c: Config, ms: seq<Agent>, at: nat)
    requires at < |ms|
    ensures Pooled(c, ms[..at + 1]) == Pooled(c, ms[..at]) + if ms[at] in c.pool then {ms[at]} else {}
  {
    assert ms[..at + 1] == ms[..at] + [ms[at]];
  }

  lemma HubAndHome(c: Config, s: Sys)
    requires Reachable(c, s)
    ensures |s.hub| == |s.home|
  {
    ReachableInv(c, s);
  }
}
