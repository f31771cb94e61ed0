/** When a heartbeat may promise that an instance stays: the shutdown timer, its recorded
    end and the grace period (pkg/runner/instances.go:56-60, 162-174, 207-217). */
module InstanceGrace {
  import opened InstanceProtocol
  import opened InstanceRuns

  /** The runner lists the instance in a heartbeat. */
  predicate Reports(s: Inst, grace: int) {
    s.registered && s.clock.end - s.clock.now >= grace
  }

  /** The heartbeat of a runner: the queue lengths of the registered instances that will not
      end within the grace period. */
  method QueueDepths(instances: map<string, Inst>, grace: int) returns (depths: map<string, int>)
    requires forall id :: id in instances ==> instances[id].registered
    ensures forall id :: id in depths <==> id in instances && Reports(instances[id], grace)
    ensures forall id :: id in depths ==> depths[id] == |instances[id].log.queue|
  {
    depths := map[];
    var todo := instances.Keys;
    while todo != {}
      invariant todo <= instances.Keys
      invariant forall id :: id in depths <==> id in instances && id !in todo && Reports(instances[id], grace)
      invariant forall id :: id in depths ==> depths[id] == |instances[id].log.queue|
      decreases todo
    {
      var id :| id in todo;
      todo := todo - {id};
      if instances[id].clock.end - instances[id].clock.now < grace {
        continue;
      }
      depths := depths[id := |instances[id].log.queue|];
    }
  }

  /** The end is stored within eps of the reset it belongs to. */
  predicate Prompt(s: Inst, step: Step, eps: int) {
    step.Ask? && step.act.Record? && step.p in s.procs && s.procs[step.p].Caller? && s.procs[step.p].pc.Recording? ==>
      s.clock.now <= s.procs[step.p].pc.at + eps
  }

  function Slow(eps: int): (Inst, Step) -> bool {
    (s, step) => !Prompt(s, step, eps)
  }

  ghost predicate PromptRun(s: Inst, steps: seq<Step>, eps: int) {
    !Ever(Slow(eps), s, steps)
  }

  // ---- the recorded end is at most eps late

  /** Up to when the instance is sure to stay. */
  function Due(s: Inst): int {
    if Ticking(s) then s.clock.now else s.clock.deadline
  }

  predicate PendingOk(s: Inst, p: Proc) {
    p.Caller? && p.pc.Recording? ==> p.pc.at + s.clock.life <= Due(s)
  }

  ghost predicate EndOk(s: Inst, eps: int) {
    && s.clock.end <= Due(s) + eps
    && (forall p :: p in s.procs ==> PendingOk(s, s.procs[p]))
  }

  ghost predicate Bounded(s: Inst, eps: int) {
    && s.clock.deadline <= s.clock.now + s.clock.life
    && (Doomed(s) || EndOk(s, eps))
  }

  lemma CallerClock(s: Inst, p: Pid, c: Proc, act: CallerAct)
    requires c.Caller?
    ensures var k := CallerDoes(s, p, c, act).clock;
            if act.Reset? && c.pc.Resetting? then k == s.clock.(deadline := s.clock.now + s.clock.life, armed := true)
            else if act.Record? && c.pc.Recording? then k == s.clock.(end := s.clock.now + s.clock.life)
            else k == s.clock
  {
  }

  lemma EndByCaller(s: Inst, p: Pid, act: CallerAct, eps: int)
    requires s.clock.deadline <= s.clock.now + s.clock.life && EndOk(s, eps) && !s.crashed
    requires p in s.procs && s.procs[p].Caller? && Prompt(s, Ask(p, act), eps) && !LateReset(s, Ask(p, act))
    ensures EndOk(NextCaller(s, p, act), eps)
  {
    var c, s' := s.procs[p], NextCaller(s, p, act);
    CallerShared(s, p, c, act);
    CallerClock(s, p, c, act);
    assert PendingOk(s, c);
    forall a | a in s'.procs
      ensures PendingOk(s', s'.procs[a])
    {
      if a in s.procs {
        assert PendingOk(s, s.procs[a]);
      }
      PendingByCaller(s, p, act, a);
    }
  }

  lemma PendingByCaller(s: Inst, p: Pid, act: CallerAct, a: Pid)
    requires s.clock.deadline <= s.clock.now + s.clock.life && !s.crashed
    requires p in s.procs && s.procs[p].Caller? && PendingOk(s, s.procs[p]) && !LateReset(s, Ask(p, act))
    requires a in NextCaller(s, p, act).procs && (a in s.procs ==> PendingOk(s, s.procs[a]))
    ensures PendingOk(NextCaller(s, p, act), NextCaller(s, p, act).procs[a])
  {
    CallerShared(s, p, s.procs[p], act);
    CallerClock(s, p, s.procs[p], act);
  }

  lemma EndByWorker(s: Inst, w: Pid, job: WorkerAct, eps: int)
    requires EndOk(s, eps) && w in s.procs && s.procs[w].Worker?
    ensures NextWorker(s, w, job).clock == s.clock && EndOk(NextWorker(s, w, job), eps)
  {
    var s' := NextWorker(s, w, job);
    WorkerShared(s, s.procs[w], job);
    assert s'.clock == s.clock;
    forall a | a in s'.procs
      ensures PendingOk(s', s'.procs[a])
    {
      assert PendingOk(s, s.procs[a]);
    }
  }

  lemma StopKeepsClock(s: Inst)
    ensures var e := NextStop(s);
            && e.procs == s.procs && Ticking(e) == Ticking(s) && e.clock.now == s.clock.now
            && e.clock.life == s.clock.life && e.clock.deadline == s.clock.deadline && e.clock.end == s.clock.end
  {
    match s.stage
    case Waiting =>
    case Ticked =>
    case Cleared =>
    case Cancelled =>
    case Closed =>
    case TimerStopped =>
    case Unregistered =>
    case Stopped =>
  }

  lemma OthersKeepClock(s: Inst, step: Step)
    requires !step.Ask? && !step.Work?
    ensures var s' := Next(s, step);
            && s'.clock.life == s.clock.life && s'.clock.now >= s.clock.now
            && s'.clock.deadline == s.clock.deadline && s'.clock.end == s.clock.end && Due(s') >= Due(s)
            && (s'.procs == s.procs
                || (step.Arrive? && step.p !in s.procs &&
                    s'.procs == s.procs[step.p := Caller(step.req, false, Looking)]))
  {
    if step.StopStep? {
      StopKeepsClock(s);
    }
  }

  lemma EndKept(s: Inst, step: Step, eps: int)
    requires s.clock.deadline <= s.clock.now + s.clock.life && EndOk(s, eps)
    requires Prompt(s, step, eps) && !LateReset(s, step)
    ensures EndOk(Next(s, step), eps)
  {
    if !s.crashed {
      if step.Ask? {
        if step.p in s.procs && s.procs[step.p].Caller? {
          EndByCaller(s, step.p, step.act, eps);
        }
      } else if step.Work? {
        if step.p in s.procs && s.procs[step.p].Worker? {
          EndByWorker(s, step.p, step.job, eps);
        }
      } else {
        OthersKeepClock(s, step);
        forall a | a in Next(s, step).procs
          ensures PendingOk(Next(s, step), Next(s, step).procs[a])
        {
          assert a in s.procs ==> PendingOk(s, s.procs[a]);
        }
      }
    }
  }

  lemma DeadlineKept(s: Inst, step: Step)
    requires s.clock.deadline <= s.clock.now + s.clock.life
    ensures var s' := Next(s, step);
            && s'.clock.deadline <= s'.clock.now + s'.clock.life
            && s.clock.now <= s'.clock.now && s.clock.life == s'.clock.life && s.clock.deadline <= s'.clock.deadline
  {
    if !s.crashed && step.Ask? && step.p in s.procs && s.procs[step.p].Caller? {
      CallerClock(s, step.p, s.procs[step.p], step.act);
    } else if !s.crashed && step.Work? && step.p in s.procs && s.procs[step.p].Worker? {
      assert Next(s, step).clock == s.clock;
    }
  }

  lemma {:induction false} RunBounded(life: int, gap: int, steps: seq<Step>, eps: int)
    requires 0 <= gap <= eps && PromptRun(Fresh(life, gap), steps, eps)
    ensures Bounded(Run(Fresh(life, gap), steps), eps)
  {
    if steps == [] {
    } else {
      var before, step := steps[..|steps| - 1], steps[|steps| - 1];
      var s := Run(Fresh(life, gap), before);
      EverLast(Slow(eps), Fresh(life, gap), steps);
      RunBounded(life, gap, before, eps);
      RunPlaced(life, gap, before);
      DoomedIff(life, gap, before);
      DeadlineKept(s, step);
      DoomedStep(s, step);
      if !Doomed(s) && !LateReset(s, step) {
        EndKept(s, step, eps);
      }
    }
  }

  // ---- resets only move the deadline later, and the instance goes only after it

  /** Nothing has ticked before the time d, and nothing will. */
  predicate Safe(s: Inst, d: int) {
    && StageOk(s)
    && s.clock.deadline <= s.clock.now + s.clock.life
    && (if Ticking(s) then d <= s.clock.now else d <= s.clock.deadline)
  }

  lemma SafeKept(s: Inst, step: Step, d: int)
    requires Safe(s, d)
    ensures Safe(Next(s, step), d)
  {
    StageKept(s, step);
    DeadlineKept(s, step);
    if !s.crashed && step.Ask? && step.p in s.procs && s.procs[step.p].Caller? {
      CallerShared(s, step.p, s.procs[step.p], step.act);
    } else if !s.crashed && step.Work? && step.p in s.procs && s.procs[step.p].Worker? {
      WorkerShared(s, s.procs[step.p], step.job);
    }
  }

  lemma {:induction false} RunSafe(s: Inst, steps: seq<Step>, d: int)
    requires Safe(s, d)
    ensures Safe(Run(s, steps), d) && s.clock.now <= Run(s, steps).clock.now
  {
    if steps == [] {
    } else {
      RunSafe(s, steps[..|steps| - 1], d);
      SafeKept(Run(s, steps[..|steps| - 1]), steps[|steps| - 1], d);
      DeadlineKept(Run(s, steps[..|steps| - 1]), steps[|steps| - 1]);
    }
  }

  /** Once reported, and with no reset after the tick so far, the instance stays registered
      for the grace period less the delay with which ends are recorded. */
  lemma ReportedStays(s: Inst, later: seq<Step>, grace: int, eps: int)
    requires Bounded(s, eps) && StageOk(s) && Reports(s, grace) && !Doomed(s)
    requires Run(s, later).clock.now < s.clock.now + grace - eps
    ensures Run(s, later).registered
  {
    RunSafe(s, later, Due(s));
  }

  // ---- the promise, exactly

  /** A report made in s is honoured for the length of the window. */
  ghost predicate Honoured(s: Inst, later: seq<Step>, window: int) {
    var last := Run(s, later);
    last.clock.now < s.clock.now + window ==> last.registered
  }

  /** Every run in which ends are recorded within eps of their resets honours, for the length
      of the window, every report made before any reset that came after the tick. */
  ghost predicate Promise(life: int, grace: int, eps: int, window: int) {
    forall gap, steps, later | 0 <= gap <= eps && PromptRun(Fresh(life, gap), steps + later, eps) ::
      Reports(Run(Fresh(life, gap), steps), grace) && !Ever(LateReset, Fresh(life, gap), steps) ==>
        Honoured(Run(Fresh(life, gap), steps), later, window)
  }

  lemma ReportHonoured(life: int, gap: int, steps: seq<Step>, later: seq<Step>, grace: int, eps: int, window: int)
    requires 0 <= gap <= eps && PromptRun(Fresh(life, gap), steps, eps) && window <= grace - eps
    requires Reports(Run(Fresh(life, gap), steps), grace) && !Ever(LateReset, Fresh(life, gap), steps)
    ensures Honoured(Run(Fresh(life, gap), steps), later, window)
  {
    var s := Run(Fresh(life, gap), steps);
    RunBounded(life, gap, steps, eps);
    RunPlaced(life, gap, steps);
    DoomedIff(life, gap, steps);
    if Run(s, later).clock.now < s.clock.now + window {
      ReportedStays(s, later, grace, eps);
    }
  }

  lemma PromiseKept(life: int, grace: int, eps: int, window: int)
    requires window <= grace - eps
    ensures Promise(life, grace, eps, window)
  {
    forall gap, steps, later | 0 <= gap <= eps && PromptRun(Fresh(life, gap), steps + later, eps)
      ensures Reports(Run(Fresh(life, gap), steps), grace) && !Ever(LateReset, Fresh(life, gap), steps) ==>
                Honoured(Run(Fresh(life, gap), steps), later, window)
    {
      EverAppend(Slow(eps), Fresh(life, gap), steps, later);
      if Reports(Run(Fresh(life, gap), steps), grace) && !Ever(LateReset, Fresh(life, gap), steps) {
        ReportHonoured(life, gap, steps, later, grace, eps, window);
      }
    }
  }

  // ---- the shutdown runs to its end at once

  function Stops(n: nat): seq<Step> {
    seq(n, _ => StopStep)
  }

  function Rank(stage: Stage): nat {
    match stage
    case Waiting => 0
    case Ticked => 1
    case Cleared => 2
    case Cancelled => 3
    case Closed => 4
    case TimerStopped => 5
    case Unregistered => 6
    case Stopped => 7
  }

  lemma StopOnce(s: Inst)
    requires Ticking(s) && !s.crashed && StageOk(s)
    ensures var e := Next(s, StopStep);
            && !e.crashed && Ticking(e) && StageOk(e) && e.clock.now == s.clock.now
            && Rank(e.stage) == if Rank(s.stage) < 7 then Rank(s.stage) + 1 else 7
  {
  }

  lemma {:induction false} StopsRun(s: Inst, n: nat)
    requires Ticking(s) && !s.crashed && StageOk(s)
    ensures var e := Run(s, Stops(n));
            && !e.crashed && Ticking(e) && StageOk(e) && e.clock.now == s.clock.now
            && Rank(e.stage) == if Rank(s.stage) + n <= 7 then Rank(s.stage) + n else 7
  {
    if n == 0 {
    } else {
      StopsRun(s, n - 1);
      assert Stops(n) == Stops(n - 1) + [StopStep];
      RunLast(s, Stops(n - 1), StopStep);
      StopOnce(Run(s, Stops(n - 1)));
    }
  }

  /** After the tick nothing keeps the instance registered. */
  lemma TickEndsPromise(s: Inst, window: int)
    requires Ticking(s) && !s.crashed && StageOk(s) && window > 0
    ensures !Honoured(s, Stops(5), window)
  {
    StopsRun(s, 5);
  }

  lemma NoAskIsPrompt(s: Inst, steps: seq<Step>, eps: int)
    requires forall k :: 0 <= k < |steps| ==> !steps[k].Ask?
    ensures PromptRun(s, steps, eps) && !Ever(LateReset, s, steps)
  {
  }

  /** The instance ticks as soon as it can. */
  lemma WaitForTick(s: Inst, time: nat)
    requires !s.crashed && s.stage.Waiting? && s.clock.now + time == s.clock.deadline
    ensures var e := Run(s, [Pass(time), Tick]);
            Ticking(e) && !e.crashed && e.clock.now == s.clock.deadline && (StageOk(s) ==> StageOk(e))
  {
    var passed := Next(s, Pass(time));
    RunTable(s, [Pass(time), Tick], [s, passed, Next(passed, Tick)], 2);
    assert [Pass(time), Tick][..2] == [Pass(time), Tick];
  }

  /** An instance that is reported, ticks as soon as it can and is unregistered. */
  lemma PromiseBroken(life: int, grace: int, eps: int, window: int)
    requires 0 <= eps <= grace <= life && window > grace - eps
    ensures !Promise(life, grace, eps, window)
  {
    var s, steps, wait := Fresh(life, eps), [Pass(life - grace)], [Pass(grace - eps), Tick];
    RunOne(s, Pass(life - grace));
    var first := Run(s, steps);
    WaitForTick(first, grace - eps);
    RunAppend(first, wait, Stops(5));
    StopsRun(Run(first, wait), 5);
    NoAskIsPrompt(s, steps + (wait + Stops(5)), eps);
    NoAskIsPrompt(s, steps, eps);
    assert Reports(first, grace) && !Honoured(first, wait + Stops(5), window);
  }

  /** How long a heartbeat's report holds, in runs with no reset after the tick before it:
      exactly the grace period less the largest delay between a timer reset and the store of
      its end. With no delay it is the whole grace period. */
  lemma PromiseIff(life: int, grace: int, eps: int, window: int)
    requires 0 <= eps <= grace <= life
    ensures Promise(life, grace, eps, window) <==> window <= grace - eps
  {
    if window <= grace - eps {
      PromiseKept(life, grace, eps, window);
    } else {
      PromiseBroken(life, grace, eps, window);
    }
  }

  /** All prompt continuations honour the report. */
  ghost predicate Certain(life: int, gap: int, steps: seq<Step>, eps: int, window: int) {
    forall later | PromptRun(Fresh(life, gap), steps + later, eps) ::
      Honoured(Run(Fresh(life, gap), steps), later, window)
  }

  /** Of a single report: within the window it is certain to be honoured if and only if no
      reset has come after the tick, which is if and only if there has been no tick. */
  lemma ReportHonouredIff(life: int, gap: int, steps: seq<Step>, grace: int, eps: int, window: int)
    requires 0 <= gap <= eps && 0 < window <= grace - eps && PromptRun(Fresh(life, gap), steps, eps)
    requires var s := Run(Fresh(life, gap), steps); Reports(s, grace) && !s.crashed
    ensures Certain(life, gap, steps, eps, window) <==> !Ever(LateReset, Fresh(life, gap), steps)
    ensures Certain(life, gap, steps, eps, window) <==> !Ticking(Run(Fresh(life, gap), steps))
  {
    var s := Run(Fresh(life, gap), steps);
    RunBounded(life, gap, steps, eps);
    RunPlaced(life, gap, steps);
    DoomedIff(life, gap, steps);
    if Ticking(s) {
      assert Doomed(s);
      TickEndsPromise(s, window);
      NoAskIsPrompt(s, Stops(5), eps);
      EverAppend(Slow(eps), Fresh(life, gap), steps, Stops(5));
      assert !Certain(life, gap, steps, eps, window);
    } else {
      DoomedTicks(s);
      forall later | PromptRun(Fresh(life, gap), steps + later, eps)
        ensures Honoured(s, later, window)
      {
        ReportHonoured(life, gap, steps, later, grace, eps, window);
      }
    }
  }

  lemma DoomedTicks(s: Inst)
    requires Positions(s)
    ensures Doomed(s) ==> Ticking(s)
  {
    if p :| p in s.procs && Failed(s.procs[p]) {
      assert ProcOk(s, s.procs[p]);
    }
  }

  /** A caller passes the check before the tick and resets the timer after it. */
  function ResetTooLate(life: nat, req: Request): seq<Step> {
    [Arrive(0, req), Ask(0, LookUp), Ask(0, Swap), Ask(0, Check), Pass(life), Tick, Ask(0, Reset), Ask(0, Record)]
  }

  function TooLateTable(life: nat, gap: nat, req: Request): seq<Inst> {
    var s := Fresh(life, gap);
    var open := s.(isOpen := true);
    var late := open.(clock := s.clock.(now := gap + life));
    var ticked := late.(clock := late.clock.(armed := false), stage := Ticked);
    var reset := ticked.(clock := late.clock.(deadline := gap + life + life));
    [s, To(s, 0, Caller(req, false, Looking)), To(s, 0, Caller(req, false, Swapping)),
     To(open, 0, Caller(req, true, Checking)), To(open, 0, Caller(req, true, Resetting)),
     To(late, 0, Caller(req, true, Resetting)), To(ticked, 0, Caller(req, true, Resetting)),
     To(reset, 0, Caller(req, true, Recording(false, gap + life))),
     To(reset.(clock := reset.clock.(end := gap + life + life)), 0, Caller(req, true, Asserting(false)))]
  }

  lemma TooLateStepA(life: nat, gap: nat, req: Request, k: nat)
    requires k < 4
    ensures Next(TooLateTable(life, gap, req)[k], ResetTooLate(life, req)[k]) == TooLateTable(life, gap, req)[k + 1]
  {
  }

  lemma TooLateStepB(life: nat, gap: nat, req: Request, k: nat)
    requires 4 <= k < 6
    ensures Next(TooLateTable(life, gap, req)[k], ResetTooLate(life, req)[k]) == TooLateTable(life, gap, req)[k + 1]
  {
  }

  lemma TooLateStepC(life: nat, gap: nat, req: Request, k: nat)
    requires 6 <= k < 8
    ensures Next(TooLateTable(life, gap, req)[k], ResetTooLate(life, req)[k]) == TooLateTable(life, gap, req)[k + 1]
  {
  }

  /** The failing report: the instance is listed although its shutdown has begun, and it is
      unregistered in no time. */
  lemma LateReport(life: nat, gap: nat, req: Request, grace: int, eps: int, window: int)
    requires gap <= eps && grace <= life && window > 0
    ensures var s := Run(Fresh(life, gap), ResetTooLate(life, req));
            && Reports(s, grace) && Ticking(s) && !s.crashed
            && !Certain(life, gap, ResetTooLate(life, req), eps, window)
  {
    var steps, table := ResetTooLate(life, req), TooLateTable(life, gap, req);
    forall k | 0 <= k < 8
      ensures Next(table[k], steps[k]) == table[k + 1]
    {
      if k < 4 {
        TooLateStepA(life, gap, req, k);
      } else if k < 6 {
        TooLateStepB(life, gap, req, k);
      } else {
        TooLateStepC(life, gap, req, k);
      }
    }
    forall k | 0 <= k < 8
      ensures Prompt(Run(Fresh(life, gap), steps[..k]), steps[k], eps)
    {
      RunTable(Fresh(life, gap), steps, table, k);
    }
    RunTable(Fresh(life, gap), steps, table, 8);
    assert steps[..8] == steps;
    TickEndsPromise(table[8], window);
    NoAskIsPrompt(table[8], Stops(5), eps);
    EverAppend(Slow(eps), Fresh(life, gap), steps, Stops(5));
    assert PromptRun(Fresh(life, gap), steps + Stops(5), eps);
  }

  // ---- the order of a shutdown

  /** The step is the shutdown's operation that leads to the stage. */
  predicate Performs(s: Inst, step: Step, op: Stage) {
    s.stage != op && Next(s, step).stage == op
  }

  lemma RankStep(s: Inst, step: Step)
    ensures Next(s, step).stage == s.stage || Rank(Next(s, step).stage) == Rank(s.stage) + 1
  {
    if step.Ask? && step.p in s.procs && s.procs[step.p].Caller? {
      CallerShared(s, step.p, s.procs[step.p], step.act);
    } else if step.Work? && step.p in s.procs && s.procs[step.p].Worker? {
      WorkerShared(s, s.procs[step.p], step.job);
    }
  }

  lemma {:induction false} RankGrows(s: Inst, steps: seq<Step>, i: nat)
    requires i <= |steps|
    ensures Rank(Run(s, steps[..i]).stage) <= Rank(Run(s, steps).stage)
    decreases |steps|
  {
    if i == |steps| {
      assert steps[..i] == steps;
    } else {
      var before := steps[..|steps| - 1];
      RankGrows(s, before, i);
      assert before[..i] == steps[..i];
      RankStep(Run(s, before), steps[|steps| - 1]);
    }
  }

  lemma OpsInOrder(s: Inst, steps: seq<Step>, j: nat, k: nat, op: Stage, op': Stage)
    requires j < k < |steps| && Performs(Run(s, steps[..j]), steps[j], op) && Performs(Run(s, steps[..k]), steps[k], op')
    ensures Rank(op) < Rank(op')
  {
    RunLast(s, steps[..j], steps[j]);
    assert steps[..j] + [steps[j]] == steps[..k][..j + 1];
    RankGrows(s, steps[..k], j + 1);
    RankStep(Run(s, steps[..k]), steps[k]);
  }

  /** Which of two operations of the shutdown comes first is the order of their ranks, so no
      operation is performed twice. */
  lemma OncePerRun(s: Inst, steps: seq<Step>, j: nat, k: nat, op: Stage, op': Stage)
    requires j < |steps| && k < |steps|
    requires Performs(Run(s, steps[..j]), steps[j], op) && Performs(Run(s, steps[..k]), steps[k], op')
    ensures j < k <==> Rank(op) < Rank(op')
    ensures op == op' ==> j == k
  {
    if j < k {
      OpsInOrder(s, steps, j, k, op, op');
    } else if k < j {
      OpsInOrder(s, steps, k, j, op', op);
    }
  }

  function Performing(op: Stage): (Inst, Step) -> bool {
    (s, step) => Performs(s, step, op)
  }

  /** The operations performed are exactly those up to the present stage. */
  lemma {:induction false} PerformedIff(life: int, gap: int, steps: seq<Step>, op: Stage)
    requires !op.Waiting?
    ensures Ever(Performing(op), Fresh(life, gap), steps) <==> Rank(op) <= Rank(Run(Fresh(life, gap), steps).stage)
  {
    if steps == [] {
    } else {
      var s, before := Fresh(life, gap), steps[..|steps| - 1];
      PerformedIff(life, gap, before, op);
      EverLast(Performing(op), s, steps);
      RankStep(Run(s, before), steps[|steps| - 1]);
    }
  }

  /** The close finds the queue open; the removal finds it closed and the instance still
      registered; the stop of the runtime finds it removed. */
  lemma OperationsAct(life: int, gap: int, steps: seq<Step>, step: Step, op: Stage)
    requires Performs(Run(Fresh(life, gap), steps), step, op)
    ensures var s := Run(Fresh(life, gap), steps);
            && (op.Closed? ==> !s.closed && Next(s, step).closed)
            && (op.Unregistered? ==> s.closed && s.registered && !Next(s, step).registered)
            && (op.Stopped? ==> !s.registered)
  {
    var s := Run(Fresh(life, gap), steps);
    RunPlaced(life, gap, steps);
    RankStep(s, step);
    StageKept(s, step);
  }

  /** From the removal on no lookup finds the instance. */
  lemma RemovedIsUnknown(life: int, gap: int, steps: seq<Step>, later: seq<Step>, c: Proc)
    requires !Run(Fresh(life, gap), steps).registered && c.Caller? && c.pc.Looking?
    ensures CallerGoes(Run(Fresh(life, gap), steps + later), c, LookUp) == Unknown
  {
    RunPlaced(life, gap, steps);
    RunPlaced(life, gap, steps + later);
    StageSays(Run(Fresh(life, gap), steps));
    StageSays(Run(Fresh(life, gap), steps + later));
    RankGrows(Fresh(life, gap), steps + later, |steps|);
    assert (steps + later)[..|steps|] == steps;
  }

  lemma StageSays(s: Inst)
    requires StageOk(s)
    ensures (Ticking(s) <==> Rank(s.stage) >= 1) && (s.closed <==> Rank(s.stage) >= 4)
    ensures !s.registered <==> Rank(s.stage) >= 6
  {
  }

  lemma FlagsSay(life: int, gap: int, steps: seq<Step>)
    ensures var last := Run(Fresh(life, gap), steps);
            && (Ticking(last) <==> Rank(last.stage) >= 1) && (last.closed <==> Rank(last.stage) >= 4)
            && (!last.registered <==> Rank(last.stage) >= 6)
  {
    RunPlaced(life, gap, steps);
    StageSays(Run(Fresh(life, gap), steps));
  }

  /** Over every run: the queue is closed exactly once the shutdown has performed its close,
      which is after the tick; the instance is out of the registry exactly once the shutdown
      has removed it, which is after the close; the runtime is stopped only after that. */
  lemma ShutdownInOrder(life: int, gap: int, steps: seq<Step>)
    ensures var s, last := Fresh(life, gap), Run(Fresh(life, gap), steps);
            && (Ticking(last) <==> Ever(Performing(Ticked), s, steps))
            && (last.closed <==> Ever(Performing(Closed), s, steps))
            && (!last.registered <==> Ever(Performing(Unregistered), s, steps))
            && (Ever(Performing(Stopped), s, steps) ==> !last.registered)
            && (!last.registered ==> last.closed) && (last.closed ==> Ticking(last))
  {
    FlagsSay(life, gap, steps);
    PerformedIff(life, gap, steps, Ticked);
    PerformedIff(life, gap, steps, Closed);
    PerformedIff(life, gap, steps, Unregistered);
    PerformedIff(life, gap, steps, Stopped);
  }

  // ---- the shutdown timer

  predicate Resets(s: Inst, step: Step) {
    && !s.crashed && step.Ask? && step.act.Reset?
    && step.p in s.procs && s.procs[step.p].Caller? && s.procs[step.p].pc.Resetting?
  }

  /** The tick is received, or the timer is stopped. */
  predicate Disarms(s: Inst, step: Step) {
    Performs(s, step, Ticked) || Performs(s, step, TimerStopped)
  }

  lemma TimerStep(s: Inst, step: Step)
    ensures Next(s, step).clock.armed <==> Resets(s, step) || (s.clock.armed && !Disarms(s, step))
  {
    if !s.crashed && step.Ask? && step.p in s.procs && s.procs[step.p].Caller? {
      CallerShared(s, step.p, s.procs[step.p], step.act);
      CallerArms(s, step.p, s.procs[step.p], step.act);
    } else if !s.crashed && step.Work? && step.p in s.procs && s.procs[step.p].Worker? {
      WorkerShared(s, s.procs[step.p], step.job);
      assert Next(s, step).clock == s.clock;
    }
  }

  /** The timer is active as long as neither the tick nor the stop has come, and after either
      it is active again only by a reset. */
  lemma {:induction false} TimerHistory(s: Inst, later: seq<Step>)
    ensures s.clock.armed && !Ever(Disarms, s, later) ==> Run(s, later).clock.armed
    ensures !s.clock.armed && !Ever(Resets, s, later) ==> !Run(s, later).clock.armed
  {
    if later == [] {
    } else {
      TimerHistory(s, later[..|later| - 1]);
      EverLast(Disarms, s, later);
      EverLast(Resets, s, later);
      TimerStep(Run(s, later[..|later| - 1]), later[|later| - 1]);
    }
  }
}
