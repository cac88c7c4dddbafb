/** The serve-mode flow scheduler as a labelled transition system.
    One label is one uninterrupted step of the program: everything between two
    points at which another task or thread can be observed. */
module Scheduler {
  /** An agent is its rank in the sorted roster. */
  type Agent = nat
  type Flow = nat
  /** A trigger id is its place in registration order. */
  type Id = nat

  const QUEUE_CAP: nat := 32
  const HISTORY_CAP: nat := 100

  datatype Mode = Shared | Exclusive

  /** members[f] lists flow f's members in sorted order; cap is max_concurrent_runs. */
  datatype Config = Config(members: seq<seq<Agent>>, pool: map<Agent, Mode>, cap: nat)

  predicate ValidConfig(c: Config) {
    forall f, i, j :: 0 <= f < |c.members| && 0 <= i < j < |c.members[f]| ==> c.members[f][i] < c.members[f][j]
  }

  datatype Status = Queued(position: nat) | Running | Terminal

  /** Where an accept stands while it holds its flow's interlock. */
  datatype Accept = NoAccept | Reserved | Counted(position: nat) | Registered(id: Id)

  datatype Worker =
    | Ready
    | InHand(job: Id)
    | Locking(job: Id, at: nat, waiting: bool)
    | Parked(job: Id)
    | Granted(job: Id)
    | Begun(job: Id)
    | Committed(job: Id)
    | Abandoning(job: Id, stage: nat)
    | Closing
    | Draining(left: seq<Id>, released: bool)
    | Exited

  /** sent, taken and started are history: ids put on the queue, taken off it, and given a run. */
  datatype FlowState = FlowState(
    open: bool, accept: Accept, queue: seq<Id>,
    outstanding: nat, running: nat,
    worker: Worker, guards: set<Agent>,
    sent: seq<Id>, taken: seq<Id>, started: seq<Id>)

  /** How a run task stands: still going, returned a status, or dropped by a panic or a torn-down runtime. */
  datatype TaskState = Live | Returned | Dropped

  /** settle counts the settle steps done: queue slot, run count, hub record. */
  datatype RunTask = RunTask(flow: Flow, id: Id, task: TaskState, settle: nat, permit: bool, guards: set<Agent>)

  /** Who holds a write lock; the lock itself only knows whether it is held. */
  datatype Holder = ByWorker(f: Flow) | ByRun(r: nat)

  /** locked maps each exclusive agent whose write lock is taken to its holder, waiting lists its FIFO waiters.
      hub[id] is the record of trigger id; home, begun and settled are history: the flow each id was
      admitted to, the ids set running, and the settlements in order. */
  datatype Sys = Sys(
    flows: seq<FlowState>, runs: seq<RunTask>,
    locked: map<Agent, Holder>, waiting: map<Agent, seq<Flow>>, free: nat,
    shutdown: bool, hub: seq<Status>, home: seq<Flow>, begun: set<Id>, settled: seq<Id>)

  datatype Label =
    | Admit(f: Flow) | Count(f: Flow) | Register(f: Flow) | Send(f: Flow)
    | Dequeue(f: Flow) | Check(f: Flow)
    | Request(f: Flow) | Grant(f: Flow) | ReadLock(f: Flow) | Skip(f: Flow) | Locked(f: Flow)
    | TakePermit(f: Flow) | Begin(f: Flow) | Commit(f: Flow) | Spawn(f: Flow)
    | Trip(f: Flow) | ReleaseSlot(f: Flow) | FinishQueued(f: Flow) | DropGuard(f: Flow, a: Agent) | Leave(f: Flow)
    | Close(f: Flow) | DrainRelease(f: Flow) | DrainFinish(f: Flow) | Exit(f: Flow)
    | Shutdown
    | End(r: nat, dropped: bool) | SettleSlot(r: nat) | SettleCount(r: nat) | SettleHub(r: nat)
    | ReleasePermit(r: nat) | ReleaseGuard(r: nat, a: Agent)

  function Idle(): FlowState {
    FlowState(true, NoAccept, [], 0, 0, Ready, {}, [], [], [])
  }

  function Init(c: Config): Sys {
    Sys(seq(|c.members|, i => Idle()), [], map[], map[], c.cap, false, [], [], {}, [])
  }

  function Waiters(s: Sys, a: Agent): seq<Flow> {
    if a in s.waiting then s.waiting[a] else []
  }

  /** The saturating decrement of `release`. */
  function Down(n: nat): nat { if n == 0 then 0 else n - 1 }

  function Without(q: seq<Flow>, f: Flow): seq<Flow> {
    if q == [] then [] else if q[0] == f then q[1..] else [q[0]] + Without(q[1..], f)
  }

  /** An update to an id the history no longer holds is ignored. */
  function SetStatus(hub: seq<Status>, id: Id, st: Status): seq<Status> {
    if id < |hub| <= id + HISTORY_CAP then hub[id := st] else hub
  }

  function Unlock(locked: map<Agent, Holder>, a: Agent): map<Agent, Holder> {
    map x | x in locked && x != a :: locked[x]
  }

  /** The guards a worker moves into its run task stay locked throughout. */
  function HandOver(locked: map<Agent, Holder>, f: Flow, r: nat): map<Agent, Holder> {
    map x | x in locked :: if locked[x] == ByWorker(f) then ByRun(r) else locked[x]
  }

  predicate Wants(c: Config, s: Sys, f: Flow)
    requires f < |s.flows|
  {
    f < |c.members| && s.flows[f].worker.Locking? && s.flows[f].worker.at < |c.members[f]|
  }

  function Wanted(c: Config, s: Sys, f: Flow): Agent
    requires f < |s.flows| && Wants(c, s, f)
  {
    c.members[f][s.flows[f].worker.at]
  }

  predicate FlowLabel(l: Label) {
    !l.Shutdown? && !l.End? && !l.SettleSlot? && !l.SettleCount? && !l.SettleHub? && !l.ReleasePermit? && !l.ReleaseGuard?
  }

  predicate Enabled(c: Config, s: Sys, l: Label) {
    if l.Shutdown? then !s.shutdown
    else if FlowLabel(l) then l.f < |s.flows| && |s.flows| == |c.members| && FlowEnabled(c, s, l)
    else l.r < |s.runs| && RunEnabled(s, l)
  }

  predicate FlowEnabled(c: Config, s: Sys, l: Label)
    requires FlowLabel(l) && l.f < |s.flows| == |c.members|
  {
    var fl := s.flows[l.f];
    var w := fl.worker;
    match l
    case Admit(f) => fl.accept.NoAccept? && fl.open && |fl.queue| < QUEUE_CAP
    case Count(f) => fl.accept.Reserved?
    case Register(f) => fl.accept.Counted?
    case Send(f) => fl.accept.Registered?
    case Dequeue(f) => w.Ready? && fl.queue != []
    case Check(f) => w.InHand?
    case Request(f) => Wants(c, s, f) && !w.waiting && Wanted(c, s, f) in c.pool && c.pool[Wanted(c, s, f)].Exclusive?
    case Grant(f) => Wants(c, s, f) && w.waiting && Wanted(c, s, f) !in s.locked
                     && Waiters(s, Wanted(c, s, f)) != [] && Waiters(s, Wanted(c, s, f))[0] == f
    case ReadLock(f) => Wants(c, s, f) && Wanted(c, s, f) in c.pool && c.pool[Wanted(c, s, f)].Shared?
    case Skip(f) => Wants(c, s, f) && Wanted(c, s, f) !in c.pool
    case Locked(f) => w.Locking? && w.at == |c.members[f]|
    case TakePermit(f) => w.Parked? && s.free > 0
    case Begin(f) => w.Granted?
    case Commit(f) => w.Begun?
    case Spawn(f) => w.Committed?
    case Trip(f) => s.shutdown && (w.Ready? || w.Locking? || w.Parked?)
    case ReleaseSlot(f) => w.Abandoning? && w.stage == 0
    case FinishQueued(f) => w.Abandoning? && w.stage == 1
    case DropGuard(f, a) => w.Abandoning? && a in fl.guards
    case Leave(f) => w.Abandoning? && w.stage >= 2 && fl.guards == {}
    case Close(f) => w.Closing? && fl.accept.NoAccept?
    case DrainRelease(f) => w.Draining? && w.left != [] && !w.released
    case DrainFinish(f) => w.Draining? && w.left != [] && w.released
    case Exit(f) => w.Draining? && w.left == []
  }

  /** A task that returned settles before its captured locks and permit drop;
      one that was dropped mid-way may give them back in any order. */
  predicate RunEnabled(s: Sys, l: Label)
    requires !FlowLabel(l) && !l.Shutdown? && l.r < |s.runs|
  {
    var q := s.runs[l.r];
    match l
    case End(r, d) => q.task.Live?
    case SettleSlot(r) => !q.task.Live? && q.settle == 0
    case SettleCount(r) => !q.task.Live? && q.settle == 1
    case SettleHub(r) => !q.task.Live? && q.settle == 2
    case ReleasePermit(r) => q.permit && (q.task.Dropped? || (q.task.Returned? && q.settle >= 3))
    case ReleaseGuard(r, a) => a in q.guards && (q.task.Dropped? || (q.task.Returned? && q.settle >= 3))
  }

  function Next(c: Config, s: Sys, l: Label): Sys
    requires Enabled(c, s, l)
  {
    if l.Shutdown? then s.(shutdown := true)
    else if FlowLabel(l) then FlowNext(c, s, l)
    else RunNext(s, l)
  }

  /** The flow's own record after one of its steps. */
  function FlowAfter(c: Config, s: Sys, l: Label): FlowState
    requires FlowLabel(l) && l.f < |s.flows| == |c.members| && FlowEnabled(c, s, l)
  {
    var fl := s.flows[l.f];
    var w := fl.worker;
    match l
    case Admit(_) => fl.(accept := Reserved)
    case Count(_) => fl.(accept := Counted(fl.outstanding), outstanding := fl.outstanding + 1)
    case Register(_) => fl.(accept := Registered(|s.hub|))
    case Send(_) => fl.(accept := NoAccept, queue := fl.queue + [fl.accept.id], sent := fl.sent + [fl.accept.id])
    case Dequeue(_) => fl.(worker := InHand(fl.queue[0]), queue := fl.queue[1..], taken := fl.taken + [fl.queue[0]])
    case Check(_) => fl.(worker := if s.shutdown then Abandoning(w.job, 0) else Locking(w.job, 0, false))
    case Request(_) => fl.(worker := w.(waiting := true))
    case Grant(_) => fl.(worker := Locking(w.job, w.at + 1, false), guards := fl.guards + {Wanted(c, s, l.f)})
    case ReadLock(_) => fl.(worker := Locking(w.job, w.at + 1, false), guards := fl.guards + {Wanted(c, s, l.f)})
    case Skip(_) => fl.(worker := Locking(w.job, w.at + 1, false))
    case Locked(_) => fl.(worker := Parked(w.job))
    case TakePermit(_) => fl.(worker := Granted(w.job))
    case Begin(_) => fl.(worker := Begun(w.job))
    case Commit(_) => fl.(worker := Committed(w.job), running := fl.running + 1)
    case Spawn(_) => fl.(worker := Ready, guards := {}, started := fl.started + [w.job])
    case Trip(_) => fl.(worker := if w.Ready? then Closing else Abandoning(w.job, 0))
    case ReleaseSlot(_) => fl.(worker := Abandoning(w.job, 1), outstanding := Down(fl.outstanding))
    case FinishQueued(_) => fl.(worker := Abandoning(w.job, 2))
    case DropGuard(_, a) => fl.(guards := fl.guards - {a})
    case Leave(_) => fl.(worker := Closing)
    case Close(_) => fl.(open := false, queue := [], taken := fl.taken + fl.queue, worker := Draining(fl.queue, false))
    case DrainRelease(_) => fl.(worker := Draining(w.left, true), outstanding := Down(fl.outstanding))
    case DrainFinish(_) => fl.(worker := Draining(w.left[1..], false))
    case Exit(_) => fl.(worker := Exited)
  }

  function LockedAfter(c: Config, s: Sys, l: Label): map<Agent, Holder>
    requires FlowLabel(l) && l.f < |s.flows| == |c.members| && FlowEnabled(c, s, l)
  {
    match l
    case Grant(f) => s.locked[Wanted(c, s, f) := ByWorker(f)]
    case Spawn(f) => HandOver(s.locked, f, |s.runs|)
    case DropGuard(_, a) => Unlock(s.locked, a)
    case _ => s.locked
  }

  function WaitingAfter(c: Config, s: Sys, l: Label): map<Agent, seq<Flow>>
    requires FlowLabel(l) && l.f < |s.flows| == |c.members| && FlowEnabled(c, s, l)
  {
    match l
    case Request(f) => s.waiting[Wanted(c, s, f) := Waiters(s, Wanted(c, s, f)) + [f]]
    case Grant(f) => s.waiting[Wanted(c, s, f) := Waiters(s, Wanted(c, s, f))[1..]]
    case Trip(f) =>
      if Wants(c, s, f) && s.flows[f].worker.waiting
      then s.waiting[Wanted(c, s, f) := Without(Waiters(s, Wanted(c, s, f)), f)] else s.waiting
    case _ => s.waiting
  }

  /** The trigger a flow step settles, if it does. */
  function SettledBy(s: Sys, l: Label): seq<Id>
    requires FlowLabel(l) && l.f < |s.flows|
  {
    var w := s.flows[l.f].worker;
    if l.FinishQueued? && w.Abandoning? then [w.job]
    else if l.DrainFinish? && w.Draining? && w.left != [] then [w.left[0]] else []
  }

  function HubAfter(c: Config, s: Sys, l: Label): seq<Status>
    requires FlowLabel(l) && l.f < |s.flows| == |c.members| && FlowEnabled(c, s, l)
  {
    var fl := s.flows[l.f];
    if l.Register? then s.hub + [Queued(fl.accept.position)]
    else if l.Begin? then SetStatus(s.hub, fl.worker.job, Running)
    else if SettledBy(s, l) != [] then SetStatus(s.hub, SettledBy(s, l)[0], Terminal)
    else s.hub
  }

  function FlowNext(c: Config, s: Sys, l: Label): Sys
    requires FlowLabel(l) && l.f < |s.flows| == |c.members| && FlowEnabled(c, s, l)
  {
    var fl := s.flows[l.f];
    Sys(s.flows[l.f := FlowAfter(c, s, l)],
        if l.Spawn? then s.runs + [RunTask(l.f, fl.worker.job, Live, 0, true, fl.guards)] else s.runs,
        LockedAfter(c, s, l),
        WaitingAfter(c, s, l),
        if l.TakePermit? then s.free - 1 else s.free,
        s.shutdown,
        HubAfter(c, s, l),
        if l.Register? then s.home + [l.f] else s.home,
        if l.Begin? then s.begun + {fl.worker.job} else s.begun,
        s.settled + SettledBy(s, l))
  }

  function RunAfter(q: RunTask, l: Label): RunTask
    requires !FlowLabel(l) && !l.Shutdown?
  {
    match l
    case End(_, d) => q.(task := if d then Dropped else Returned)
    case SettleSlot(_) => q.(settle := 1)
    case SettleCount(_) => q.(settle := 2)
    case SettleHub(_) => q.(settle := 3)
    case ReleasePermit(_) => q.(permit := false)
    case ReleaseGuard(_, a) => q.(guards := q.guards - {a})
  }

  /** The counter a settle step gives back; a run of a flow without ingress gives back none. */
  function CountersAfter(flows: seq<FlowState>, f: Flow, l: Label): seq<FlowState> {
    if f >= |flows| then flows
    else if l.SettleSlot? then flows[f := flows[f].(outstanding := Down(flows[f].outstanding))]
    else if l.SettleCount? then flows[f := flows[f].(running := Down(flows[f].running))]
    else flows
  }

  function RunNext(s: Sys, l: Label): Sys
    requires !FlowLabel(l) && !l.Shutdown? && l.r < |s.runs| && RunEnabled(s, l)
  {
    var q := s.runs[l.r];
    s.(flows := CountersAfter(s.flows, q.flow, l),
       runs := s.runs[l.r := RunAfter(q, l)],
       locked := if l.ReleaseGuard? then Unlock(s.locked, l.a) else s.locked,
       free := if l.ReleasePermit? then s.free + 1 else s.free,
       hub := if l.SettleHub? then SetStatus(s.hub, q.id, Terminal) else s.hub,
       settled := if l.SettleHub? then s.settled + [q.id] else s.settled)
  }

  datatype Outcome = Stuck | At(s: Sys)

  /** The state after a schedule, or Stuck if one of its steps was not enabled. */
  function Exec(c: Config, ls: seq<Label>): Outcome {
    if ls == [] then At(Init(c))
    else
      var o := Exec(c, ls[..|ls| - 1]);
      if o.At? && Enabled(c, o.s, ls[|ls| - 1]) then At(Next(c, o.s, ls[|ls| - 1])) else Stuck
  }

  ghost predicate Reachable(c: Config, s: Sys) {
    exists ls :: Exec(c, ls) == At(s)
  }
}
