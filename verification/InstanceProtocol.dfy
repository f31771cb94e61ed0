/** One function instance on a runner (pkg/runner/instances.go, pkg/runner/grpc.go):
    callers elect a worker with a compare-and-swap on `opened`, the worker drains a bounded
    FIFO queue, and an idle timer shuts the instance down. Goroutines are program counters
    over the shared state; a step is one atomic operation, lock section or channel
    operation. A run is any sequence of steps, and a step that is not enabled changes
    nothing. A failed assertion or a send on a closed channel ends the run in `crashed`. */
module InstanceProtocol {
  type Pid = nat
  type Request = string
  type Reply = string

  const QUEUE_MAX := 100

  /** A queued invocation; the caller's id stands for its own result channel. */
  datatype Call = Call(caller: Pid, req: Request)
  datatype Answer = Answer(call: Call, reply: Reply)

  datatype CallerPc =
    | Looking                       // before the registry lookup
    | Swapping                      // found, before the compare-and-swap
    | Checking                      // before the assertion that the queue is open
    | Resetting                     // before the timer reset
    | Recording(ok: bool, at: int)  // reset at a time, before the end time is stored
    | Asserting(ok: bool)           // before the assertion on the reset
    | Sending                       // before the channel send
    | Spawning                      // sent as elected caller, before starting the worker
    | Awaiting
    | Answered(reply: Reply)
    | Gone                          // context done while awaiting
    | Unknown                       // not in the registry

  datatype WorkerPc =
    | Selecting
    | Invoking(call: Call)
    | Replying(call: Call, reply: Reply)
    | Rearming                      // before the reset of the worker's idle timer
    | Closing                       // before opened.Store(false)
    | Exited

  datatype Proc =
    | Caller(req: Request, elected: bool, pc: CallerPc)
    | Worker(idle: bool, wpc: WorkerPc)  // idle: its timer's tick has been received

  /** The shutdown goroutine, in the order of its operations. */
  datatype Stage = Waiting | Ticked | Cleared | Cancelled | Closed | TimerStopped | Unregistered | Stopped

  /** The channel and its history. */
  datatype Log = Log(
    queue: seq<Call>,
    enqueued: seq<Call>,   // every call ever sent to the queue
    taken: seq<Call>,      // every call a worker has received from it
    served: seq<Answer>)   // every call handed to the guest, with its reply

  datatype Clock = Clock(
    now: int,
    life: int,             // instanceShutdownAfter
    deadline: int,         // when the shutdown timer fires
    end: int,              // lastUsedTimerEnd
    armed: bool)           // the shutdown timer is active: a reset would return true

  datatype Inst = Inst(
    clock: Clock,
    registered: bool,
    isOpen: bool,          // the flag `opened`
    closed: bool,
    cancelled: bool,
    stage: Stage,
    procs: map<Pid, Proc>,
    log: Log,
    crashed: bool)

  datatype CallerAct = LookUp | Swap | Check | Reset | Record | AssertReset | Send | Spawn(w: Pid) | GiveUp

  datatype WorkerAct = SeeCancel | SeeIdle | Receive | Invoke(reply: Reply) | Respond | Rearm | ClearOpened

  datatype Step =
    | Pass(time: nat)
    | Arrive(p: Pid, req: Request)
    | Ask(p: Pid, act: CallerAct)
    | Work(p: Pid, job: WorkerAct)
    | Tick
    | StopStep

  /** The shutdown goroutine has received the tick. */
  predicate Ticking(s: Inst) {
    !s.stage.Waiting?
  }

  /** A freshly submitted instance: the timer started `gap` before its end was stored. */
  function Fresh(life: int, gap: int): Inst {
    Inst(Clock(gap, life, life, gap + life, true), true, false, false, false, Waiting, map[], Log([], [], [], []), false)
  }

  function To(s: Inst, p: Pid, proc: Proc): Inst {
    s.(procs := s.procs[p := proc])
  }

  function Crash(s: Inst): Inst {
    s.(crashed := true)
  }

  function Next(s: Inst, step: Step): Inst {
    if s.crashed then s
    else match step
      case Pass(time) => s.(clock := s.clock.(now := s.clock.now + time))
      case Arrive(p, req) => if p in s.procs then s else To(s, p, Caller(req, false, Looking))
      case Ask(p, act) => if p in s.procs && s.procs[p].Caller? then NextCaller(s, p, act) else s
      case Work(w, job) => if w in s.procs && s.procs[w].Worker? then NextWorker(s, w, job) else s
      case Tick =>
        if s.stage.Waiting? && s.clock.now >= s.clock.deadline then
          s.(clock := s.clock.(armed := false), stage := Ticked)
        else s
      case StopStep => NextStop(s)
  }

  function NextStop(s: Inst): Inst {
    match s.stage
    case Waiting => s
    case Ticked => s.(isOpen := false, stage := Cleared)
    case Cleared => s.(cancelled := true, stage := Cancelled)
    case Cancelled => s.(closed := true, stage := Closed)
    case Closed => s.(clock := s.clock.(armed := false), stage := TimerStopped)
    case TimerStopped => s.(registered := false, stage := Unregistered)
    case Unregistered => s.(stage := Stopped)
    case Stopped => s
  }

  // ---- callers

  /** Where a caller goes; it stays where it is if the operation is not its next one or
      blocks. */
  function CallerGoes(s: Inst, c: Proc, act: CallerAct): CallerPc
    requires c.Caller?
  {
    match act
    case LookUp => if c.pc.Looking? then (if s.registered then Swapping else Unknown) else c.pc
    case Swap => if c.pc.Swapping? then Checking else c.pc
    case Check => if c.pc.Checking? && s.isOpen then Resetting else c.pc
    case Reset => if c.pc.Resetting? then Recording(s.clock.armed, s.clock.now) else c.pc
    case Record => if c.pc.Recording? then Asserting(c.pc.ok) else c.pc
    case AssertReset => if c.pc.Asserting? && c.pc.ok then Sending else c.pc
    case Send => if CanSend(s, c) then (if c.elected then Spawning else Awaiting) else c.pc
    case Spawn(w) => if c.pc.Spawning? && w !in s.procs then Awaiting else c.pc
    case GiveUp => if c.pc.Awaiting? then Gone else c.pc
  }

  predicate CanSend(s: Inst, c: Proc) {
    c.Caller? && c.pc.Sending? && !s.closed && |s.log.queue| < QUEUE_MAX
  }

  /** What the operation does to everything but the caller itself. */
  function CallerDoes(s: Inst, p: Pid, c: Proc, act: CallerAct): Inst
    requires c.Caller?
  {
    match act
    case Swap => if c.pc.Swapping? then s.(isOpen := true) else s
    case Check => if c.pc.Checking? && !s.isOpen then Crash(s) else s
    // a reset arms the timer also when it fails
    case Reset =>
      if c.pc.Resetting? then s.(clock := s.clock.(deadline := s.clock.now + s.clock.life, armed := true)) else s
    case Record => if c.pc.Recording? then s.(clock := s.clock.(end := s.clock.now + s.clock.life)) else s
    case AssertReset => if c.pc.Asserting? && !c.pc.ok then Crash(s) else s
    case Send =>
      if CanSend(s, c) then s.(log := Sent(s.log, Call(p, c.req)))
      else if c.pc.Sending? && s.closed then Crash(s)
      else s
    case Spawn(w) => if c.pc.Spawning? && w !in s.procs then To(s, w, Worker(false, Selecting)) else s
    case _ => s
  }

  function Sent(log: Log, call: Call): Log {
    log.(queue := log.queue + [call], enqueued := log.enqueued + [call])
  }

  function Took(log: Log): Log
    requires log.queue != []
  {
    log.(queue := log.queue[1..], taken := log.taken + [log.queue[0]])
  }

  function NextCaller(s: Inst, p: Pid, act: CallerAct): Inst
    requires p in s.procs && s.procs[p].Caller?
  {
    var c := s.procs[p];
    // the compare-and-swap elects the caller that finds the flag clear
    var elected := if act.Swap? && c.pc.Swapping? then !s.isOpen else c.elected;
    To(CallerDoes(s, p, c, act), p, Caller(c.req, elected, CallerGoes(s, c, act)))
  }

  // ---- workers

  predicate Waits(s: Inst, p: Pid) {
    p in s.procs && s.procs[p].Caller? && s.procs[p].pc.Awaiting?
  }

  function WorkerGoes(s: Inst, k: Proc, job: WorkerAct): WorkerPc
    requires k.Worker?
  {
    match job
    case SeeCancel => if k.wpc.Selecting? && s.cancelled then Exited else k.wpc
    case SeeIdle => if k.wpc.Selecting? then Closing else k.wpc
    case Receive =>
      if !k.wpc.Selecting? then k.wpc
      else if s.log.queue != [] then Invoking(s.log.queue[0])
      else if s.closed then Closing
      else k.wpc
    case Invoke(reply) => if k.wpc.Invoking? then Replying(k.wpc.call, reply) else k.wpc
    // the result channel is unbuffered: the send completes only with the waiting caller
    case Respond => if k.wpc.Replying? && Waits(s, k.wpc.call.caller) then Rearming else k.wpc
    // the idle timer's reset fails iff its tick has been received
    case Rearm => if k.wpc.Rearming? then (if k.idle then Exited else Selecting) else k.wpc
    case ClearOpened => if k.wpc.Closing? then Exited else k.wpc
  }

  function WorkerDoes(s: Inst, k: Proc, job: WorkerAct): Inst
    requires k.Worker?
  {
    match job
    case Receive =>
      if k.wpc.Selecting? && s.log.queue != [] then s.(log := Took(s.log)) else s
    case Invoke(reply) =>
      if k.wpc.Invoking? then s.(log := s.log.(served := s.log.served + [Answer(k.wpc.call, reply)])) else s
    case Respond =>
      if k.wpc.Replying? && Waits(s, k.wpc.call.caller) then
        var c := s.procs[k.wpc.call.caller];
        To(s, k.wpc.call.caller, Caller(c.req, c.elected, Answered(k.wpc.reply)))
      else s
    case ClearOpened => if k.wpc.Closing? then s.(isOpen := false) else s
    case _ => s
  }

  function NextWorker(s: Inst, w: Pid, job: WorkerAct): Inst
    requires w in s.procs && s.procs[w].Worker?
  {
    var k := s.procs[w];
    var idle := k.idle || (job.SeeIdle? && k.wpc.Selecting?);
    To(WorkerDoes(s, k, job), w, Worker(idle, WorkerGoes(s, k, job)))
  }

  function Run(s: Inst, steps: seq<Step>): Inst {
    if steps == [] then s else Next(Run(s, steps[..|steps| - 1]), steps[|steps| - 1])
  }

  /** Some step of the run is bad in the state in which it is taken. */
  ghost predicate Ever(bad: (Inst, Step) -> bool, s: Inst, steps: seq<Step>) {
    exists k :: 0 <= k < |steps| && bad(Run(s, steps[..k]), steps[k])
  }

  lemma EverSnoc(bad: (Inst, Step) -> bool, s: Inst, steps: seq<Step>, step: Step)
    ensures Ever(bad, s, steps + [step]) <==> Ever(bad, s, steps) || bad(Run(s, steps), step)
  {
    var all := steps + [step];
    forall k | 0 <= k < |steps|
      ensures bad(Run(s, all[..k]), all[k]) <==> bad(Run(s, steps[..k]), steps[k])
    {
      assert all[..k] == steps[..k];
    }
    assert all[..|steps|] == steps && all[|steps|] == step;
  }

  lemma EverLast(bad: (Inst, Step) -> bool, s: Inst, steps: seq<Step>)
    requires steps != []
    ensures var n := |steps| - 1;
            Ever(bad, s, steps) <==> Ever(bad, s, steps[..n]) || bad(Run(s, steps[..n]), steps[n])
  {
    var n := |steps| - 1;
    EverSnoc(bad, s, steps[..n], steps[n]);
    assert steps[..n] + [steps[n]] == steps;
  }

  // ---- panics

  /** The step fails an assertion or sends on a closed channel: the flag is clear at the check,
      the reset had failed, or the queue is closed at the send. */
  predicate Panics(s: Inst, step: Step) {
    && step.Ask? && step.p in s.procs && s.procs[step.p].Caller?
    && var pc := s.procs[step.p].pc;
       || (step.act.Check? && pc.Checking? && !s.isOpen)
       || (step.act.AssertReset? && pc.Asserting? && !pc.ok)
       || (step.act.Send? && pc.Sending? && s.closed)
  }

  lemma CallerPanics(s: Inst, p: Pid, act: CallerAct)
    requires !s.crashed && p in s.procs && s.procs[p].Caller?
    ensures NextCaller(s, p, act).crashed <==> Panics(s, Ask(p, act))
    ensures Panics(s, Ask(p, act)) ==> NextCaller(s, p, act) == Crash(s)
  {
    assert s.procs[p := s.procs[p]] == s.procs;
    match act
    case Check =>
    case AssertReset =>
    case Send =>
    case _ =>
  }

  /** Those steps panic, and no others; the state is left as it was. */
  lemma PanicIff(s: Inst, step: Step)
    requires !s.crashed
    ensures Next(s, step).crashed <==> Panics(s, step)
    ensures Panics(s, step) ==> Next(s, step) == Crash(s)
  {
    match step
    case Ask(p, act) =>
      if p in s.procs && s.procs[p].Caller? {
        CallerPanics(s, p, act);
      }
    case Work(w, job) =>
      if w in s.procs && s.procs[w].Worker? {
        WorkerNeverPanics(s, w, job);
      }
    case _ =>
  }

  lemma WorkerNeverPanics(s: Inst, w: Pid, job: WorkerAct)
    requires !s.crashed && w in s.procs && s.procs[w].Worker?
    ensures !NextWorker(s, w, job).crashed
  {
  }

  // ---- the election

  predicate LiveWorker(p: Proc) {
    p.Worker? && p.wpc != Exited
  }

  predicate ElectedCaller(p: Proc) {
    p.Caller? && p.elected &&
    (p.pc.Checking? || p.pc.Resetting? || p.pc.Recording? || p.pc.Asserting? || p.pc.Sending? || p.pc.Spawning?)
  }

  /** Responsible for the open queue. */
  predicate Holder(p: Proc) {
    LiveWorker(p) || ElectedCaller(p)
  }

  /** A worker, or an elected caller whose timer reset succeeded. */
  predicate Committed(p: Proc) {
    LiveWorker(p) ||
    (ElectedCaller(p) &&
     ((p.pc.Recording? && p.pc.ok) || (p.pc.Asserting? && p.pc.ok) || p.pc.Sending? || p.pc.Spawning?))
  }

  ghost predicate OneHolder(s: Inst) {
    forall a, b :: a in s.procs && b in s.procs && Holder(s.procs[a]) && Holder(s.procs[b]) ==> a == b
  }

  ghost predicate OneCommitted(s: Inst) {
    forall a, b :: a in s.procs && b in s.procs && Committed(s.procs[a]) && Committed(s.procs[b]) ==> a == b
  }

  ghost predicate Held(s: Inst) {
    exists a :: a in s.procs && Holder(s.procs[a])
  }

  /** What each goroutine's position says about the shared state. */
  predicate ProcOk(s: Inst, p: Proc) {
    match p
    case Caller(_, elected, pc) =>
      && (pc.Recording? && !pc.ok ==> Ticking(s))
      && (pc.Asserting? && !pc.ok ==> Ticking(s))
      && (pc.Looking? || pc.Swapping? ==> !elected)
      && (pc.Spawning? ==> elected)
    case Worker(idle, wpc) =>
      && (idle ==> wpc.Closing? || wpc.Exited?)
      && (wpc.Closing? ==> idle || s.closed)
  }

  /** The shutdown goroutine's position says what it has done. */
  predicate StageOk(s: Inst) {
    && (s.cancelled <==> s.stage.Cancelled? || s.closed)
    && (s.closed <==> s.stage.Closed? || s.stage.TimerStopped? || !s.registered)
    && (!s.registered <==> s.stage.Unregistered? || s.stage.Stopped?)
    && (!Ticking(s) ==> s.clock.armed)
  }

  ghost predicate Positions(s: Inst) {
    && StageOk(s)
    && (forall a :: a in s.procs ==> ProcOk(s, s.procs[a]))
  }

  /** Before the shutdown tick, the flag is set exactly while one goroutine is responsible. */
  ghost predicate Responsible(s: Inst) {
    !Ticking(s) ==> OneHolder(s) && (s.isOpen <==> Held(s))
  }

  lemma StageKept(s: Inst, step: Step)
    requires StageOk(s)
    ensures StageOk(Next(s, step))
    ensures Ticking(s) ==> Ticking(Next(s, step))
    ensures s.closed ==> Next(s, step).closed
  {
  }

  lemma CallerShared(s: Inst, p: Pid, c: Proc, act: CallerAct)
    requires c.Caller?
    ensures var s' := CallerDoes(s, p, c, act);
            && s'.stage == s.stage && s'.closed == s.closed
            && s'.procs == if act.Spawn? && c.pc.Spawning? && act.w !in s.procs
                           then s.procs[act.w := Worker(false, Selecting)] else s.procs
  {
  }

  lemma WorkerShared(s: Inst, k: Proc, job: WorkerAct)
    requires k.Worker?
    ensures var s' := WorkerDoes(s, k, job);
            && s'.stage == s.stage && s'.closed == s.closed
            && (s'.procs == s.procs
                || (job.Respond? && k.wpc.Replying? && Waits(s, k.wpc.call.caller) &&
                    var c := s.procs[k.wpc.call.caller];
                    s'.procs == s.procs[k.wpc.call.caller := Caller(c.req, c.elected, Answered(k.wpc.reply))]))
  {
  }

  lemma CallerPlaced(s: Inst, p: Pid, act: CallerAct)
    requires Positions(s) && p in s.procs && s.procs[p].Caller?
    ensures Positions(NextCaller(s, p, act))
  {
    var c := s.procs[p];
    assert ProcOk(s, c);
    CallerShared(s, p, c, act);
  }

  lemma WorkerPlaced(s: Inst, w: Pid, job: WorkerAct)
    requires Positions(s) && w in s.procs && s.procs[w].Worker?
    ensures Positions(NextWorker(s, w, job))
  {
    assert ProcOk(s, s.procs[w]);
    WorkerShared(s, s.procs[w], job);
  }

  lemma PositionsKept(s: Inst, step: Step)
    requires Positions(s)
    ensures Positions(Next(s, step))
  {
    if step.Ask? {
      if step.p in s.procs && s.procs[step.p].Caller? {
        CallerPlaced(s, step.p, step.act);
      }
    } else if step.Work? {
      if step.p in s.procs && s.procs[step.p].Worker? {
        WorkerPlaced(s, step.p, step.job);
      }
    } else {
      StageKept(s, step);
    }
  }

  /** A goroutine moves without gaining or losing responsibility. */
  predicate Quiet(s: Inst, s': Inst, p: Pid) {
    && Ticking(s') == Ticking(s) && s'.isOpen == s.isOpen
    && p in s.procs && p in s'.procs && s'.procs == s.procs[p := s'.procs[p]]
    && (Holder(s'.procs[p]) <==> Holder(s.procs[p]))
  }

  lemma QuietMove(s: Inst, s': Inst, p: Pid)
    requires Responsible(s) && Quiet(s, s', p)
    ensures Responsible(s')
  {
    assert forall a :: a in s'.procs && Holder(s'.procs[a]) ==> a in s.procs && Holder(s.procs[a]);
    if h :| h in s.procs && Holder(s.procs[h]) {
      assert h in s'.procs && Holder(s'.procs[h]);
    }
  }

  lemma SameProcs(s: Inst, s': Inst)
    requires Responsible(s) && s'.procs == s.procs
    requires Ticking(s') || (!Ticking(s) && s'.isOpen == s.isOpen)
    ensures Responsible(s')
  {
  }

  lemma ResponsibleByArrival(s: Inst, p: Pid, req: Request)
    requires Responsible(s) && p !in s.procs
    ensures Responsible(To(s, p, Caller(req, false, Looking)))
  {
    var s' := To(s, p, Caller(req, false, Looking));
    assert forall a :: a in s'.procs && a != p ==> a in s.procs && s'.procs[a] == s.procs[a];
    if h :| h in s.procs && Holder(s.procs[h]) {
      assert h in s'.procs && Holder(s'.procs[h]);
    }
  }

  lemma ResponsibleBySwap(s: Inst, p: Pid)
    requires Responsible(s) && p in s.procs && s.procs[p].Caller? && s.procs[p].pc.Swapping? && !s.procs[p].elected
    ensures Responsible(NextCaller(s, p, Swap))
  {
    var s' := NextCaller(s, p, Swap);
    if s.isOpen {
      QuietMove(s, s', p);
    } else {
      assert Holder(s'.procs[p]);
      assert forall a :: a in s'.procs && a != p ==> a in s.procs && s'.procs[a] == s.procs[a];
    }
  }

  lemma ResponsibleBySpawn(s: Inst, p: Pid, w: Pid)
    requires Responsible(s) && p in s.procs && ElectedCaller(s.procs[p]) && s.procs[p].pc.Spawning? && w !in s.procs
    ensures Responsible(NextCaller(s, p, Spawn(w)))
  {
    var s' := NextCaller(s, p, Spawn(w));
    assert Holder(s'.procs[w]) && Holder(s.procs[p]);
    forall a | a in s'.procs
      ensures Holder(s'.procs[a]) ==> a == w || (a in s.procs && a != p && Holder(s.procs[a]))
    {
    }
  }

  predicate Elects(c: Proc, act: CallerAct) {
    c.Caller? && act.Swap? && c.pc.Swapping?
  }

  predicate Spawns(s: Inst, c: Proc, act: CallerAct) {
    c.Caller? && act.Spawn? && c.pc.Spawning? && act.w !in s.procs
  }

  lemma CallerQuiet(s: Inst, p: Pid, act: CallerAct)
    requires p in s.procs && s.procs[p].Caller? && ProcOk(s, s.procs[p])
    requires !Elects(s.procs[p], act) && !Spawns(s, s.procs[p], act)
    ensures Quiet(s, NextCaller(s, p, act), p)
  {
    CallerShared(s, p, s.procs[p], act);
  }

  lemma ResponsibleByCaller(s: Inst, p: Pid, act: CallerAct)
    requires Positions(s) && Responsible(s) && p in s.procs && s.procs[p].Caller?
    ensures Responsible(NextCaller(s, p, act))
  {
    assert ProcOk(s, s.procs[p]);
    if Elects(s.procs[p], act) {
      ResponsibleBySwap(s, p);
    } else if Spawns(s, s.procs[p], act) {
      ResponsibleBySpawn(s, p, act.w);
    } else {
      CallerQuiet(s, p, act);
      QuietMove(s, NextCaller(s, p, act), p);
    }
  }

  predicate Leaves(s: Inst, k: Proc, job: WorkerAct) {
    k.Worker? && ((job.SeeCancel? && k.wpc.Selecting? && s.cancelled) || (job.ClearOpened? && k.wpc.Closing?))
  }

  predicate Responds(s: Inst, k: Proc, job: WorkerAct) {
    k.Worker? && job.Respond? && k.wpc.Replying? && Waits(s, k.wpc.call.caller)
  }

  /** A worker leaves. Before the tick it clears the flag as it goes. */
  lemma ResponsibleByExit(s: Inst, w: Pid, job: WorkerAct)
    requires Responsible(s) && StageOk(s) && w in s.procs && Leaves(s, s.procs[w], job)
    ensures Responsible(NextWorker(s, w, job))
  {
    var s' := NextWorker(s, w, job);
    forall a | a in s'.procs
      ensures Holder(s'.procs[a]) ==> a != w && a in s.procs && Holder(s.procs[a])
    {
    }
    assert Holder(s.procs[w]);
  }

  lemma ResponsibleByReply(s: Inst, w: Pid)
    requires Responsible(s) && w in s.procs && Responds(s, s.procs[w], Respond)
    ensures Responsible(NextWorker(s, w, Respond))
  {
    var mid := WorkerDoes(s, s.procs[w], Respond);
    QuietMove(s, mid, s.procs[w].wpc.call.caller);
    QuietMove(mid, NextWorker(s, w, Respond), w);
  }

  lemma WorkerQuiet(s: Inst, w: Pid, job: WorkerAct)
    requires w in s.procs && s.procs[w].Worker? && ProcOk(s, s.procs[w])
    requires !Leaves(s, s.procs[w], job) && !Responds(s, s.procs[w], job)
    ensures Quiet(s, NextWorker(s, w, job), w)
  {
    WorkerShared(s, s.procs[w], job);
  }

  lemma ResponsibleByWorker(s: Inst, w: Pid, job: WorkerAct)
    requires Positions(s) && Responsible(s) && w in s.procs && s.procs[w].Worker?
    ensures Responsible(NextWorker(s, w, job))
  {
    assert ProcOk(s, s.procs[w]);
    if Leaves(s, s.procs[w], job) {
      ResponsibleByExit(s, w, job);
    } else if Responds(s, s.procs[w], job) {
      ResponsibleByReply(s, w);
    } else {
      WorkerQuiet(s, w, job);
      QuietMove(s, NextWorker(s, w, job), w);
    }
  }

  lemma ResponsibleKept(s: Inst, step: Step)
    requires Positions(s) && Responsible(s)
    ensures Responsible(Next(s, step))
  {
    if !s.crashed {
      match step
      case Pass(_) => SameProcs(s, Next(s, step));
      case Tick => SameProcs(s, Next(s, step));
      case StopStep => SameProcs(s, NextStop(s));
      case Arrive(p, req) =>
        if p !in s.procs {
          ResponsibleByArrival(s, p, req);
        }
      case Ask(p, act) =>
        if p in s.procs && s.procs[p].Caller? {
          ResponsibleByCaller(s, p, act);
        }
      case Work(w, job) =>
        if w in s.procs && s.procs[w].Worker? {
          ResponsibleByWorker(s, w, job);
        }
    }
  }

  lemma {:induction false} RunPlaced(life: int, gap: int, steps: seq<Step>)
    ensures Positions(Run(Fresh(life, gap), steps)) && Responsible(Run(Fresh(life, gap), steps))
  {
    if steps == [] {
    } else {
      var before, step := steps[..|steps| - 1], steps[|steps| - 1];
      RunPlaced(life, gap, before);
      PositionsKept(Run(Fresh(life, gap), before), step);
      ResponsibleKept(Run(Fresh(life, gap), before), step);
    }
  }

  lemma RunLast(s: Inst, steps: seq<Step>, step: Step)
    ensures Run(s, steps + [step]) == Next(Run(s, steps), step)
  {
    assert (steps + [step])[..|steps|] == steps;
  }

  lemma {:induction false} RunAppend(s: Inst, a: seq<Step>, b: seq<Step>)
    ensures Run(s, a + b) == Run(Run(s, a), b)
    decreases |b|
  {
    if b == [] {
      assert a + b == a;
    } else {
      var b', last := b[..|b| - 1], b[|b| - 1];
      RunAppend(s, a, b');
      assert a + b == (a + b') + [last] && b == b' + [last];
      RunLast(s, a + b', last);
      RunLast(Run(s, a), b', last);
    }
  }

  lemma RunOne(s: Inst, step: Step)
    ensures Run(s, [step]) == Next(s, step)
  {
    RunLast(s, [], step);
    assert [] + [step] == [step];
  }

  lemma RunCons(s: Inst, step: Step, rest: seq<Step>)
    ensures Run(s, [step] + rest) == Run(Next(s, step), rest)
  {
    RunOne(s, step);
    RunAppend(s, [step], rest);
  }

  lemma EverAppendOne(bad: (Inst, Step) -> bool, s: Inst, a: seq<Step>, b: seq<Step>, last: Step)
    ensures Ever(bad, s, a + (b + [last])) <==> Ever(bad, s, a + b) || bad(Run(Run(s, a), b), last)
  {
    EverSnoc(bad, s, a + b, last);
    RunAppend(s, a, b);
    assert a + b + [last] == a + (b + [last]);
  }

  lemma {:induction false} EverAppend(bad: (Inst, Step) -> bool, s: Inst, a: seq<Step>, b: seq<Step>)
    ensures Ever(bad, s, a + b) <==> Ever(bad, s, a) || Ever(bad, Run(s, a), b)
    decreases |b|
  {
    if b == [] {
      assert a + b == a;
    } else {
      var b', last := b[..|b| - 1], b[|b| - 1];
      EverAppend(bad, s, a, b');
      EverAppendOne(bad, s, a, b', last);
      EverSnoc(bad, Run(s, a), b', last);
      assert b' + [last] == b;
    }
  }

  // ---- resets after the tick

  /** A caller whose reset has failed: it stays there until the assertion ends the run. */
  predicate Failed(p: Proc) {
    p.Caller? && ((p.pc.Recording? && !p.pc.ok) || (p.pc.Asserting? && !p.pc.ok))
  }

  ghost predicate Doomed(s: Inst) {
    exists p :: p in s.procs && Failed(s.procs[p])
  }

  /** The step resets the shutdown timer although its tick has been received. */
  predicate LateReset(s: Inst, step: Step) {
    && !s.crashed && Ticking(s) && step.Ask? && step.act.Reset?
    && step.p in s.procs && s.procs[step.p].Caller? && s.procs[step.p].pc.Resetting?
  }

  /** After the tick the timer is active again only by a reset that failed. */
  ghost predicate Rearmed(s: Inst) {
    Ticking(s) && s.clock.armed ==> Doomed(s)
  }

  lemma CallerArms(s: Inst, p: Pid, c: Proc, act: CallerAct)
    requires c.Caller?
    ensures CallerDoes(s, p, c, act).clock.armed == (s.clock.armed || (act.Reset? && c.pc.Resetting?))
    ensures Failed(Caller(c.req, c.elected, CallerGoes(s, c, act)))
            <==> Failed(c) || (act.Reset? && c.pc.Resetting? && !s.clock.armed)
  {
  }

  lemma DoomedByCaller(s: Inst, p: Pid, act: CallerAct)
    requires StageOk(s) && Rearmed(s) && !s.crashed && p in s.procs && s.procs[p].Caller?
    ensures Doomed(NextCaller(s, p, act)) <==> Doomed(s) || LateReset(s, Ask(p, act))
    ensures Rearmed(NextCaller(s, p, act))
  {
    var s' := NextCaller(s, p, act);
    CallerShared(s, p, s.procs[p], act);
    CallerArms(s, p, s.procs[p], act);
    assert Failed(s'.procs[p]) <==> Failed(s.procs[p]) || (LateReset(s, Ask(p, act)) && !s.clock.armed);
    if d :| d in s.procs && Failed(s.procs[d]) {
      assert d in s'.procs && Failed(s'.procs[d]);
    }
    forall d | d in s'.procs && d != p && Failed(s'.procs[d])
      ensures d in s.procs && Failed(s.procs[d])
    {
    }
  }

  lemma DoomedByWorker(s: Inst, w: Pid, job: WorkerAct)
    requires Rearmed(s) && w in s.procs && s.procs[w].Worker?
    ensures Doomed(NextWorker(s, w, job)) <==> Doomed(s)
    ensures Rearmed(NextWorker(s, w, job))
  {
    var s' := NextWorker(s, w, job);
    WorkerShared(s, s.procs[w], job);
    assert s'.clock == s.clock;
    if d :| d in s.procs && Failed(s.procs[d]) {
      assert d in s'.procs && Failed(s'.procs[d]);
    }
    forall d | d in s'.procs && Failed(s'.procs[d])
      ensures d in s.procs && Failed(s.procs[d])
    {
    }
  }

  lemma DoomedStep(s: Inst, step: Step)
    requires StageOk(s) && Rearmed(s)
    ensures Doomed(Next(s, step)) <==> Doomed(s) || LateReset(s, step)
    ensures Rearmed(Next(s, step))
  {
    if !s.crashed {
      match step
      case Ask(p, act) =>
        if p in s.procs && s.procs[p].Caller? {
          DoomedByCaller(s, p, act);
        }
      case Work(w, job) =>
        if w in s.procs && s.procs[w].Worker? {
          DoomedByWorker(s, w, job);
        }
      case Arrive(p, req) =>
        if d :| d in s.procs && Failed(s.procs[d]) {
          assert d in Next(s, step).procs && Failed(Next(s, step).procs[d]);
        }
      case _ =>
        assert Next(s, step).procs == s.procs;
    }
  }

  /** A caller stands at a failed reset exactly if some reset of the run came after the
      tick. */
  lemma {:induction false} DoomedIff(life: int, gap: int, steps: seq<Step>)
    ensures Doomed(Run(Fresh(life, gap), steps)) <==> Ever(LateReset, Fresh(life, gap), steps)
    ensures Rearmed(Run(Fresh(life, gap), steps))
  {
    if steps == [] {
    } else {
      var before := steps[..|steps| - 1];
      DoomedIff(life, gap, before);
      RunPlaced(life, gap, before);
      DoomedStep(Run(Fresh(life, gap), before), steps[|steps| - 1]);
      EverLast(LateReset, Fresh(life, gap), steps);
    }
  }

  // ---- at most one committed

  /** An elected caller's reset succeeds. */
  predicate Commits(s: Inst, c: Proc, act: CallerAct) {
    c.Caller? && c.elected && act.Reset? && c.pc.Resetting? && s.clock.armed
  }

  /** An elected caller's reset succeeds while another goroutine serves or is about to. */
  ghost predicate SecondElection(s: Inst, step: Step) {
    && !s.crashed && step.Ask? && step.p in s.procs && Commits(s, s.procs[step.p], step.act)
    && exists a :: a in s.procs && a != step.p && Committed(s.procs[a])
  }

  lemma CallerCommits(s: Inst, p: Pid, act: CallerAct)
    requires p in s.procs && s.procs[p].Caller? && ProcOk(s, s.procs[p])
    ensures var q := NextCaller(s, p, act).procs[p];
            if Commits(s, s.procs[p], act) then Committed(q)
            else if Spawns(s, s.procs[p], act) then Committed(s.procs[p]) && !Committed(q)
            else Committed(q) ==> Committed(s.procs[p])
  {
  }

  lemma OneCommittedByCaller(s: Inst, p: Pid, act: CallerAct)
    requires Positions(s) && OneCommitted(s) && !s.crashed && p in s.procs && s.procs[p].Caller?
    ensures OneCommitted(NextCaller(s, p, act)) <==> !SecondElection(s, Ask(p, act))
  {
    var s' := NextCaller(s, p, act);
    assert ProcOk(s, s.procs[p]);
    CallerShared(s, p, s.procs[p], act);
    CallerCommits(s, p, act);
    assert forall a :: a in s'.procs && a != p && Committed(s'.procs[a]) ==>
        (a in s.procs && Committed(s.procs[a])) || (Spawns(s, s.procs[p], act) && a == act.w);
    if SecondElection(s, Ask(p, act)) {
      var a :| a in s.procs && a != p && Committed(s.procs[a]);
      assert a in s'.procs && Committed(s'.procs[a]);
    }
  }

  lemma OneCommittedByWorker(s: Inst, w: Pid, job: WorkerAct)
    requires OneCommitted(s) && w in s.procs && s.procs[w].Worker?
    ensures OneCommitted(NextWorker(s, w, job))
  {
    var s' := NextWorker(s, w, job);
    WorkerShared(s, s.procs[w], job);
    forall a | a in s'.procs && Committed(s'.procs[a])
      ensures a in s.procs && Committed(s.procs[a])
    {
    }
  }

  /** The exact step that lets a second goroutine serve. */
  lemma OneCommittedStep(s: Inst, step: Step)
    requires Positions(s) && OneCommitted(s)
    ensures OneCommitted(Next(s, step)) <==> !SecondElection(s, step)
  {
    if !s.crashed {
      match step
      case Ask(p, act) =>
        if p in s.procs && s.procs[p].Caller? {
          OneCommittedByCaller(s, p, act);
        }
      case Work(w, job) =>
        if w in s.procs && s.procs[w].Worker? {
          OneCommittedByWorker(s, w, job);
        }
      case _ =>
        forall a | a in Next(s, step).procs && Committed(Next(s, step).procs[a])
          ensures a in s.procs && Next(s, step).procs[a] == s.procs[a]
        {
        }
    }
  }

  /** A second election needs a reset after the tick that has already failed. */
  lemma SecondElectionIsLate(s: Inst, step: Step)
    requires Positions(s) && Responsible(s) && Rearmed(s) && SecondElection(s, step)
    ensures Ticking(s) && Doomed(s)
  {
    var a :| a in s.procs && a != step.p && Committed(s.procs[a]);
    assert Holder(s.procs[a]) && Holder(s.procs[step.p]);
  }

  /** In a run with no reset after the tick nobody is elected twice. */
  lemma {:induction false} OneCommittedUnlessDoomed(life: int, gap: int, steps: seq<Step>)
    ensures Doomed(Run(Fresh(life, gap), steps)) || OneCommitted(Run(Fresh(life, gap), steps))
  {
    if steps == [] {
    } else {
      var before, step := steps[..|steps| - 1], steps[|steps| - 1];
      var s := Run(Fresh(life, gap), before);
      OneCommittedUnlessDoomed(life, gap, before);
      RunPlaced(life, gap, before);
      DoomedIff(life, gap, before);
      DoomedStep(s, step);
      if !Doomed(s) {
        OneCommittedStep(s, step);
        if SecondElection(s, step) {
          SecondElectionIsLate(s, step);
        }
      }
    }
  }
}
