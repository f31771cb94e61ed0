/** Runs of an instance that show where its promises end: two workers at once after a reset
    that came too late, and a worker that goes idle while others rely on it. */
module InstanceRuns {
  import opened InstanceProtocol
  import opened InstanceQueue

  /** A run whose states are listed in a table. */
  lemma {:induction false} RunTable(s: Inst, steps: seq<Step>, table: seq<Inst>, k: nat)
    requires |table| == |steps| + 1 && table[0] == s && k <= |steps|
    requires forall j :: 0 <= j < |steps| ==> Next(table[j], steps[j]) == table[j + 1]
    ensures Run(s, steps[..k]) == table[k]
  {
    if k == 0 {
    } else {
      RunTable(s, steps, table, k - 1);
      assert steps[..k] == steps[..k - 1] + [steps[k - 1]];
      RunLast(s, steps[..k - 1], steps[k - 1]);
    }
  }

  // ---- single moves of a caller

  lemma FindsInstance(s: Inst, p: Pid, req: Request)
    requires !s.crashed && s.registered
    ensures Next(To(s, p, Caller(req, false, Looking)), Ask(p, LookUp)) == To(s, p, Caller(req, false, Swapping))
  {
  }

  lemma SwapsFlag(s: Inst, p: Pid, req: Request)
    requires !s.crashed
    ensures Next(To(s, p, Caller(req, false, Swapping)), Ask(p, Swap)) ==
            To(s.(isOpen := true), p, Caller(req, !s.isOpen, Checking))
  {
  }

  lemma PassesCheck(s: Inst, p: Pid, req: Request, elected: bool)
    requires !s.crashed && s.isOpen
    ensures Next(To(s, p, Caller(req, elected, Checking)), Ask(p, Check)) == To(s, p, Caller(req, elected, Resetting))
  {
  }

  function Armed(s: Inst): Inst {
    s.(clock := s.clock.(deadline := s.clock.now + s.clock.life, armed := true))
  }

  lemma ResetsTimer(s: Inst, p: Pid, req: Request, elected: bool)
    requires !s.crashed
    ensures Next(To(s, p, Caller(req, elected, Resetting)), Ask(p, Reset)) ==
            To(Armed(s), p, Caller(req, elected, Recording(s.clock.armed, s.clock.now)))
  {
  }

  /** The next operation of a caller between its swap and its send. */
  function NextAct(pc: CallerPc): CallerAct {
    match pc
    case Checking => Check
    case Resetting => Reset
    case Recording(_, _) => Record
    case Asserting(_) => AssertReset
    case _ => Send
  }

  function Distance(pc: CallerPc): nat {
    match pc
    case Checking => 5
    case Resetting => 4
    case Recording(_, _) => 3
    case Asserting(_) => 2
    case Sending => 1
    case _ => 0
  }

  // ---- one caller is elected and starts a worker

  /** A caller finds the flag clear and resets the timer. */
  function Enter(p: Pid, req: Request): seq<Step> {
    [Arrive(p, req), Ask(p, LookUp), Ask(p, Swap), Ask(p, Check), Ask(p, Reset)]
  }

  /** It goes on to send its request and start a worker. */
  function Serve(p: Pid, w: Pid): seq<Step> {
    [Ask(p, Record), Ask(p, AssertReset), Ask(p, Send), Ask(p, Spawn(w))]
  }

  predicate CanEnter(s: Inst, p: Pid) {
    !s.crashed && s.registered && !s.isOpen && s.clock.armed && p !in s.procs
  }

  predicate CanServe(s: Inst, p: Pid, w: Pid) {
    !s.closed && |s.log.queue| < QUEUE_MAX && w !in s.procs && p != w
  }

  function Entered(s: Inst, p: Pid, req: Request): Inst {
    s.(isOpen := true, clock := s.clock.(deadline := s.clock.now + s.clock.life),
       procs := s.procs[p := Caller(req, true, Recording(true, s.clock.now))])
  }

  function Recorded(s: Inst): Inst {
    s.(isOpen := true, clock := s.clock.(deadline := s.clock.now + s.clock.life, end := s.clock.now + s.clock.life))
  }

  function Served(s: Inst, p: Pid, w: Pid, req: Request): Inst {
    Recorded(s).(procs := s.procs[w := Worker(false, Selecting)][p := Caller(req, true, Awaiting)],
                 log := Sent(s.log, Call(p, req)))
  }

  function EnterTable(s: Inst, p: Pid, req: Request): seq<Inst> {
    var open := s.(isOpen := true);
    [s, To(s, p, Caller(req, false, Looking)), To(s, p, Caller(req, false, Swapping)),
     To(open, p, Caller(req, true, Checking)), To(open, p, Caller(req, true, Resetting)), Entered(s, p, req)]
  }

  function ServeTable(s: Inst, p: Pid, w: Pid, req: Request): seq<Inst> {
    var end := Recorded(s);
    [Entered(s, p, req), To(end, p, Caller(req, true, Asserting(true))), To(end, p, Caller(req, true, Sending)),
     To(end.(log := Sent(s.log, Call(p, req))), p, Caller(req, true, Spawning)), Served(s, p, w, req)]
  }

  lemma EnterStepA(s: Inst, p: Pid, req: Request, k: nat)
    requires CanEnter(s, p) && k < 2
    ensures Next(EnterTable(s, p, req)[k], Enter(p, req)[k]) == EnterTable(s, p, req)[k + 1]
  {
  }

  lemma EnterStepB(s: Inst, p: Pid, req: Request, k: nat)
    requires CanEnter(s, p) && 2 <= k < 4
    ensures Next(EnterTable(s, p, req)[k], Enter(p, req)[k]) == EnterTable(s, p, req)[k + 1]
  {
  }

  lemma EnterStepC(s: Inst, p: Pid, req: Request)
    requires CanEnter(s, p)
    ensures Next(EnterTable(s, p, req)[4], Enter(p, req)[4]) == EnterTable(s, p, req)[5]
  {
  }

  lemma ServeStepA(s: Inst, p: Pid, w: Pid, req: Request, k: nat)
    requires CanEnter(s, p) && CanServe(s, p, w) && k < 2
    ensures Next(ServeTable(s, p, w, req)[k], Serve(p, w)[k]) == ServeTable(s, p, w, req)[k + 1]
  {
  }

  lemma ServeStepB(s: Inst, p: Pid, w: Pid, req: Request, k: nat)
    requires CanEnter(s, p) && CanServe(s, p, w) && k == 2
    ensures Next(ServeTable(s, p, w, req)[k], Serve(p, w)[k]) == ServeTable(s, p, w, req)[k + 1]
  {
  }

  lemma ServeStepC(s: Inst, p: Pid, w: Pid, req: Request, k: nat)
    requires CanEnter(s, p) && CanServe(s, p, w) && k == 3
    ensures Next(ServeTable(s, p, w, req)[k], Serve(p, w)[k]) == ServeTable(s, p, w, req)[k + 1]
  {
  }

  lemma EnterRun(s: Inst, p: Pid, req: Request)
    requires CanEnter(s, p)
    ensures Run(s, Enter(p, req)) == Entered(s, p, req)
  {
    forall k | 0 <= k < 5
      ensures Next(EnterTable(s, p, req)[k], Enter(p, req)[k]) == EnterTable(s, p, req)[k + 1]
    {
      if k < 2 {
        EnterStepA(s, p, req, k);
      } else if k < 4 {
        EnterStepB(s, p, req, k);
      } else {
        EnterStepC(s, p, req);
      }
    }
    RunTable(s, Enter(p, req), EnterTable(s, p, req), 5);
    assert Enter(p, req)[..5] == Enter(p, req);
  }

  lemma ServeRun(s: Inst, p: Pid, w: Pid, req: Request)
    requires CanEnter(s, p) && CanServe(s, p, w)
    ensures Run(s, Enter(p, req) + Serve(p, w)) == Served(s, p, w, req)
  {
    forall k | 0 <= k < 4
      ensures Next(ServeTable(s, p, w, req)[k], Serve(p, w)[k]) == ServeTable(s, p, w, req)[k + 1]
    {
      if k < 2 {
        ServeStepA(s, p, w, req, k);
      } else if k == 2 {
        ServeStepB(s, p, w, req, k);
      } else {
        ServeStepC(s, p, w, req, k);
      }
    }
    RunTable(Entered(s, p, req), Serve(p, w), ServeTable(s, p, w, req), 4);
    assert Serve(p, w)[..4] == Serve(p, w);
    EnterRun(s, p, req);
    RunAppend(s, Enter(p, req), Serve(p, w));
  }

  // ---- two workers

  /** The first worker takes its call; caller 2 loses the election and passes the check; the
      timer ticks; caller 2 resets it all the same; the flag is cleared. */
  function LateSteps(life: int, req: Request): seq<Step> {
    [Work(1, Receive), Arrive(2, req), Ask(2, LookUp), Ask(2, Swap), Ask(2, Check),
     Pass(if life > 0 then life else 0), Tick, Ask(2, Reset), StopStep]
  }

  function BusyWith(s: Inst, req: Request, pc: CallerPc): Inst {
    s.(procs := map[0 := Caller(req, true, Awaiting), 1 := Worker(false, Invoking(Call(0, req))), 2 := Caller(req, false, pc)])
  }

  function LateTable(life: int, gap: int, req: Request): seq<Inst> {
    var c, now := Call(0, req), gap + if life > 0 then life else 0;
    var s := Served(Fresh(life, gap), 0, 1, req);
    var busy := s.(log := Log([], [c], [c], []));
    var late := busy.(clock := s.clock.(now := now));
    var ticked := late.(clock := late.clock.(armed := false), stage := Ticked);
    var reset := late.(clock := late.clock.(deadline := now + life), stage := Ticked);
    [s, busy.(procs := map[0 := Caller(req, true, Awaiting), 1 := Worker(false, Invoking(c))]),
     BusyWith(busy, req, Looking), BusyWith(busy, req, Swapping), BusyWith(busy, req, Checking),
     BusyWith(busy, req, Resetting), BusyWith(late, req, Resetting), BusyWith(ticked, req, Resetting),
     BusyWith(reset, req, Recording(false, now)),
     BusyWith(reset.(stage := Cleared, isOpen := false), req, Recording(false, now))]
  }

  lemma LateStepA(life: int, gap: int, req: Request, k: nat)
    requires k < 2
    ensures Next(LateTable(life, gap, req)[k], LateSteps(life, req)[k]) == LateTable(life, gap, req)[k + 1]
  {
  }

  lemma LateStepB(life: int, gap: int, req: Request, k: nat)
    requires 2 <= k < 4
    ensures Next(LateTable(life, gap, req)[k], LateSteps(life, req)[k]) == LateTable(life, gap, req)[k + 1]
  {
  }

  lemma LateStepC(life: int, gap: int, req: Request, k: nat)
    requires 4 <= k < 7
    ensures Next(LateTable(life, gap, req)[k], LateSteps(life, req)[k]) == LateTable(life, gap, req)[k + 1]
  {
  }

  lemma LateStepD(life: int, gap: int, req: Request, k: nat)
    requires 7 <= k < 9
    ensures Next(LateTable(life, gap, req)[k], LateSteps(life, req)[k]) == LateTable(life, gap, req)[k + 1]
  {
  }

  lemma LateRun(life: int, gap: int, req: Request)
    ensures Run(Served(Fresh(life, gap), 0, 1, req), LateSteps(life, req)) == LateTable(life, gap, req)[9]
  {
    forall k | 0 <= k < 9
      ensures Next(LateTable(life, gap, req)[k], LateSteps(life, req)[k]) == LateTable(life, gap, req)[k + 1]
    {
      if k < 2 {
        LateStepA(life, gap, req, k);
      } else if k < 4 {
        LateStepB(life, gap, req, k);
      } else if k < 7 {
        LateStepC(life, gap, req, k);
      } else {
        LateStepD(life, gap, req, k);
      }
    }
    RunTable(Served(Fresh(life, gap), 0, 1, req), LateSteps(life, req), LateTable(life, gap, req), 9);
    assert LateSteps(life, req)[..9] == LateSteps(life, req);
  }

  /** The run in which callers 0 and 3 are both elected; workers 1 and 4 both take a call. */
  function TwoWorkers(life: int, req: Request): seq<Step> {
    Enter(0, req) + Serve(0, 1) + LateSteps(life, req) + (Enter(3, req) + Serve(3, 4)) + [Work(4, Receive)]
  }

  lemma TwoWorkersReach(life: int, gap: int, req: Request)
    ensures Run(Fresh(life, gap), TwoWorkers(life, req)) ==
            Next(Served(LateTable(life, gap, req)[9], 3, 4, req), Work(4, Receive))
  {
    var s0, first, second := Fresh(life, gap), Enter(0, req) + Serve(0, 1), Enter(3, req) + Serve(3, 4);
    ServeRun(s0, 0, 1, req);
    LateRun(life, gap, req);
    RunAppend(s0, first, LateSteps(life, req));
    ServeRun(LateTable(life, gap, req)[9], 3, 4, req);
    RunAppend(s0, first + LateSteps(life, req), second);
    RunLast(s0, first + LateSteps(life, req) + second, Work(4, Receive));
  }

  /** What the fourth worker does. */
  lemma Overtakes(s: Inst, c0: Call, c3: Call, reply: Reply)
    requires !s.crashed && 1 in s.procs && s.procs[1] == Worker(false, Invoking(c0))
    requires 4 in s.procs && s.procs[4] == Worker(false, Selecting) && s.log == Log([c3], [c0, c3], [c0], [])
    ensures var s1 := Next(s, Work(4, Receive));
            && !s1.crashed && s1.procs == s.procs[4 := Worker(false, Invoking(c3))]
            && Next(s1, Work(4, Invoke(reply))).log == Log([], [c0, c3], [c0, c3], [Answer(c3, reply)])
            && !Next(s1, Work(4, Invoke(reply))).crashed
  {
    var s1 := Next(s, Work(4, Receive));
    assert s1.log == Log([], [c0, c3], [c0, c3], []);
  }

  lemma BothServe(s: Inst, a: Pid, b: Pid)
    requires a != b && a in s.procs && b in s.procs && InHand(s.procs[a]) && InHand(s.procs[b])
    ensures !OneCommitted(s) && !InOrder(s)
  {
    assert Committed(s.procs[a]) && Committed(s.procs[b]);
  }

  /** After a reset that came too late two workers hold a request at once, and the guest may
      get the later one first. */
  lemma TwoWorkersOvertake(life: int, gap: int, req: Request, reply: Reply)
    ensures var s := Run(Fresh(life, gap), TwoWorkers(life, req));
            && !s.crashed && 1 in s.procs && 4 in s.procs
            && s.procs[1] == Worker(false, Invoking(Call(0, req))) && s.procs[4] == Worker(false, Invoking(Call(3, req)))
            && !OneCommitted(s) && !InOrder(s)
    ensures var s := Run(Fresh(life, gap), TwoWorkers(life, req) + [Work(4, Invoke(reply))]);
            !s.crashed && s.log.enqueued == [Call(0, req), Call(3, req)] && Calls(s.log.served) == [Call(3, req)]
  {
    var s := Served(LateTable(life, gap, req)[9], 3, 4, req);
    TwoWorkersReach(life, gap, req);
    Overtakes(s, Call(0, req), Call(3, req), reply);
    BothServe(Next(s, Work(4, Receive)), 1, 4);
    RunLast(Fresh(life, gap), TwoWorkers(life, req), Work(4, Invoke(reply)));
  }

  // ---- a worker goes idle

  /** The worker goes idle; before it clears the flag a caller arrives and loses the election
      to it; then that caller checks the flag. */
  function IdleThenCall(w: Pid, p: Pid, req: Request): seq<Step> {
    [Work(w, SeeIdle), Arrive(p, req), Ask(p, LookUp), Ask(p, Swap), Work(w, ClearOpened), Ask(p, Check)]
  }

  function IdleTable(s: Inst, w: Pid, p: Pid, req: Request): seq<Inst> {
    var idle, gone := To(s, w, Worker(true, Closing)), To(s.(isOpen := false), w, Worker(true, Exited));
    [s, idle, To(idle, p, Caller(req, false, Looking)), To(idle, p, Caller(req, false, Swapping)),
     To(idle, p, Caller(req, false, Checking)), To(gone, p, Caller(req, false, Checking)),
     Crash(To(gone, p, Caller(req, false, Checking)))]
  }

  predicate CanIdle(s: Inst, w: Pid, p: Pid) {
    !s.crashed && s.registered && s.isOpen && w in s.procs && s.procs[w] == Worker(false, Selecting) && p !in s.procs
  }

  lemma IdleStepA(s: Inst, w: Pid, p: Pid, req: Request, k: nat)
    requires CanIdle(s, w, p) && k < 2
    ensures Next(IdleTable(s, w, p, req)[k], IdleThenCall(w, p, req)[k]) == IdleTable(s, w, p, req)[k + 1]
  {
  }

  lemma IdleStepB(s: Inst, w: Pid, p: Pid, req: Request, k: nat)
    requires CanIdle(s, w, p) && 2 <= k < 4
    ensures Next(IdleTable(s, w, p, req)[k], IdleThenCall(w, p, req)[k]) == IdleTable(s, w, p, req)[k + 1]
  {
    var idle := To(s, w, Worker(true, Closing));
    if k == 2 {
      FindsInstance(idle, p, req);
    } else {
      SwapsFlag(idle, p, req);
      assert idle.(isOpen := true) == idle;
    }
  }

  lemma IdleStepC(s: Inst, w: Pid, p: Pid, req: Request)
    requires CanIdle(s, w, p)
    ensures Next(IdleTable(s, w, p, req)[4], IdleThenCall(w, p, req)[4]) == IdleTable(s, w, p, req)[5]
    ensures Next(IdleTable(s, w, p, req)[5], IdleThenCall(w, p, req)[5]) == IdleTable(s, w, p, req)[6]
  {
  }

  lemma IdleRun(s: Inst, w: Pid, p: Pid, req: Request, k: nat)
    requires CanIdle(s, w, p) && k <= 6
    ensures Run(s, IdleThenCall(w, p, req)[..k]) == IdleTable(s, w, p, req)[k]
  {
    forall j | 0 <= j < 6
      ensures Next(IdleTable(s, w, p, req)[j], IdleThenCall(w, p, req)[j]) == IdleTable(s, w, p, req)[j + 1]
    {
      if j < 2 {
        IdleStepA(s, w, p, req, j);
      } else if j < 4 {
        IdleStepB(s, w, p, req, j);
      } else {
        IdleStepC(s, w, p, req);
      }
    }
    RunTable(s, IdleThenCall(w, p, req), IdleTable(s, w, p, req), k);
  }
}
