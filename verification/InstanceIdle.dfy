/** What a worker that goes idle costs: before the shutdown tick, the assertion on the open
    queue and the service of queued requests fail only by it, and exactly when others rely
    on it (pkg/runner/grpc.go:354-356, pkg/runner/instances.go:66). */
module InstanceIdle {
  import opened InstanceProtocol
  import opened InstanceRuns

  /** The worker's idle timer fires. */
  predicate GoesIdle(s: Inst, step: Step) {
    && !s.crashed && step.Work? && step.job.SeeIdle?
    && step.p in s.procs && s.procs[step.p].Worker? && s.procs[step.p].wpc.Selecting?
  }

  /** Between its swap and its send. */
  predicate PastSwap(p: Proc) {
    p.Caller? && (p.pc.Checking? || p.pc.Resetting? || p.pc.Recording? || p.pc.Asserting? || p.pc.Sending?)
  }

  /** A panic, or a request in the queue that nobody is responsible for. */
  ghost predicate Failing(s: Inst) {
    s.crashed || (s.log.queue != [] && !Held(s))
  }

  // ---- without idle workers

  ghost predicate NoneIdle(s: Inst) {
    forall w :: w in s.procs && s.procs[w].Worker? ==> !s.procs[w].idle
  }

  /** Whoever relies on the open queue finds it open. */
  ghost predicate Reliable(s: Inst) {
    && !s.crashed
    && (s.log.queue != [] ==> s.isOpen)
    && (forall a :: a in s.procs && PastSwap(s.procs[a]) ==> s.isOpen)
  }

  lemma NoneIdleStep(s: Inst, step: Step)
    requires NoneIdle(s) && !GoesIdle(s, step)
    ensures NoneIdle(Next(s, step))
  {
    if !s.crashed && step.Ask? && step.p in s.procs && s.procs[step.p].Caller? {
      CallerShared(s, step.p, s.procs[step.p], step.act);
    } else if !s.crashed && step.Work? && step.p in s.procs && s.procs[step.p].Worker? {
      WorkerShared(s, s.procs[step.p], step.job);
    }
  }

  lemma CallerRelies(s: Inst, p: Pid, act: CallerAct)
    requires Positions(s) && Reliable(s) && !Ticking(s) && p in s.procs && s.procs[p].Caller?
    ensures var s' := CallerDoes(s, p, s.procs[p], act);
            !s'.crashed && (s.isOpen ==> s'.isOpen) && (s'.log.queue != [] ==> s'.isOpen)
    ensures PastSwap(NextCaller(s, p, act).procs[p]) ==> NextCaller(s, p, act).isOpen
  {
    assert ProcOk(s, s.procs[p]);
    assert PastSwap(s.procs[p]) ==> s.isOpen;
  }

  lemma WorkerRelies(s: Inst, w: Pid, job: WorkerAct)
    requires Positions(s) && Reliable(s) && NoneIdle(s) && !Ticking(s) && w in s.procs && s.procs[w].Worker?
    ensures var s' := WorkerDoes(s, s.procs[w], job);
            !s'.crashed && s'.isOpen == s.isOpen && (s'.log.queue != [] ==> s.log.queue != [])
  {
    assert ProcOk(s, s.procs[w]);
  }

  lemma ReliableStep(s: Inst, step: Step)
    requires Positions(s) && Reliable(s) && NoneIdle(s) && !Ticking(s) && !GoesIdle(s, step)
    ensures Ticking(Next(s, step)) || Reliable(Next(s, step))
  {
    var s' := Next(s, step);
    if step.Ask? && step.p in s.procs && s.procs[step.p].Caller? {
      CallerShared(s, step.p, s.procs[step.p], step.act);
      CallerRelies(s, step.p, step.act);
      forall a | a in s'.procs && PastSwap(s'.procs[a])
        ensures s'.isOpen
      {
        assert a != step.p ==> a in s.procs && s'.procs[a] == s.procs[a];
      }
    } else if step.Work? && step.p in s.procs && s.procs[step.p].Worker? {
      WorkerShared(s, s.procs[step.p], step.job);
      WorkerRelies(s, step.p, step.job);
      forall a | a in s'.procs && PastSwap(s'.procs[a])
        ensures s'.isOpen
      {
        assert a in s.procs && s'.procs[a] == s.procs[a];
      }
    } else {
      forall a | a in s'.procs && PastSwap(s'.procs[a])
        ensures a in s.procs && s'.procs[a] == s.procs[a]
      {
      }
    }
  }

  lemma {:induction false} ReliableRun(life: int, gap: int, steps: seq<Step>)
    requires !Ever(GoesIdle, Fresh(life, gap), steps)
    ensures var s := Run(Fresh(life, gap), steps);
            NoneIdle(s) && (Ticking(s) || Reliable(s))
  {
    if steps == [] {
    } else {
      var before, step := steps[..|steps| - 1], steps[|steps| - 1];
      var s := Run(Fresh(life, gap), before);
      EverLast(GoesIdle, Fresh(life, gap), steps);
      ReliableRun(life, gap, before);
      RunPlaced(life, gap, before);
      NoneIdleStep(s, step);
      StageKept(s, step);
      if !Ticking(s) {
        ReliableStep(s, step);
      }
    }
  }

  /** In every run in which no worker goes idle, before the tick no assertion fails, no send
      hits a closed queue and a queued request always has somebody responsible. */
  lemma SafeWithoutIdling(life: int, gap: int, steps: seq<Step>)
    requires !Ever(GoesIdle, Fresh(life, gap), steps) && !Ticking(Run(Fresh(life, gap), steps))
    ensures !Failing(Run(Fresh(life, gap), steps))
  {
    ReliableRun(life, gap, steps);
    RunPlaced(life, gap, steps);
  }

  /** Before the tick the check of the flag is the only assertion that can fail. */
  lemma OnlyCheckPanics(life: int, gap: int, steps: seq<Step>, step: Step)
    requires var s := Run(Fresh(life, gap), steps); !s.crashed && !Ticking(s) && Next(s, step).crashed
    ensures var s := Run(Fresh(life, gap), steps);
            step.Ask? && step.act.Check? && step.p in s.procs && s.procs[step.p].Caller? && s.procs[step.p].pc.Checking? &&
            !s.isOpen
  {
    var s := Run(Fresh(life, gap), steps);
    RunPlaced(life, gap, steps);
    PanicIff(s, step);
    assert ProcOk(s, s.procs[step.p]);
  }

  // ---- how a worker leaves

  /** A worker that waits for requests leaves when it sees the cancellation; when its idle timer
      has fired or the closed queue is empty it leaves too, and clears the flag. */
  lemma WorkerLeaves(s: Inst, w: Pid)
    requires !s.crashed && w in s.procs && s.procs[w] == Worker(false, Selecting)
    ensures s.cancelled ==> Next(s, Work(w, SeeCancel)) == To(s, w, Worker(false, Exited))
    ensures Next(Next(s, Work(w, SeeIdle)), Work(w, ClearOpened)) == To(s.(isOpen := false), w, Worker(true, Exited))
    ensures s.closed && s.log.queue == [] ==>
              Next(Next(s, Work(w, Receive)), Work(w, ClearOpened)) == To(s.(isOpen := false), w, Worker(false, Exited))
  {
    var idle := Next(s, Work(w, SeeIdle));
    assert idle == To(s, w, Worker(true, Closing));
    if s.closed && s.log.queue == [] {
      assert Next(s, Work(w, Receive)) == To(s, w, Worker(false, Closing));
    }
  }

  /** Where a worker's operation can lead. */
  lemma WorkerGoesOut(s: Inst, k: Proc, job: WorkerAct)
    requires LiveWorker(k) && ProcOk(s, k)
    ensures WorkerGoes(s, k, job).Exited? ==>
              (job.SeeCancel? && s.cancelled) || (job.ClearOpened? && k.wpc.Closing?)
    ensures WorkerGoes(s, k, job).Closing? && !k.wpc.Closing? ==>
              job.SeeIdle? || (job.Receive? && s.closed && s.log.queue == [])
  {
  }

  /** A worker's position changes by its own operation only. */
  lemma WorkerMovesItself(s: Inst, step: Step, w: Pid)
    requires w in s.procs && s.procs[w].Worker?
    ensures w in Next(s, step).procs && Next(s, step).procs[w].Worker?
    ensures Next(s, step).procs[w].wpc == s.procs[w].wpc ||
            (step.Work? && step.p == w && Next(s, step).procs[w].wpc == WorkerGoes(s, s.procs[w], step.job))
  {
    if !s.crashed && step.Ask? && step.p in s.procs && s.procs[step.p].Caller? {
      CallerShared(s, step.p, s.procs[step.p], step.act);
    } else if !s.crashed && step.Work? && step.p in s.procs && s.procs[step.p].Worker? {
      WorkerShared(s, s.procs[step.p], step.job);
    }
  }

  /** And it leaves in no other way. */
  lemma LeavesOnlySo(life: int, gap: int, steps: seq<Step>, step: Step, w: Pid)
    requires var s := Run(Fresh(life, gap), steps); w in s.procs && LiveWorker(s.procs[w])
    ensures var s, e := Run(Fresh(life, gap), steps), Next(Run(Fresh(life, gap), steps), step);
            && w in e.procs && e.procs[w].Worker?
            && (e.procs[w].wpc.Exited? ==> (step == Work(w, SeeCancel) && s.cancelled) ||
                                           (step == Work(w, ClearOpened) && s.procs[w].wpc.Closing?))
            && (e.procs[w].wpc.Closing? && !s.procs[w].wpc.Closing? ==>
                  step == Work(w, SeeIdle) || (step == Work(w, Receive) && s.closed && s.log.queue == []))
  {
    var s := Run(Fresh(life, gap), steps);
    RunPlaced(life, gap, steps);
    assert ProcOk(s, s.procs[w]);
    WorkerMovesItself(s, step, w);
    if step.Work? && step.p == w {
      WorkerGoesOut(s, s.procs[w], step.job);
    }
  }

  // ---- exactly when going idle is unsafe

  /** Somebody relies on the worker: a request is queued, or a caller that lost the election
      stands between its swap and its send. */
  ghost predicate ReliedOn(s: Inst) {
    s.log.queue != [] || exists a :: a in s.procs && PastSwap(s.procs[a]) && !s.procs[a].elected
  }

  predicate Swaps(s: Inst, step: Step) {
    !s.crashed && step.Ask? && step.p in s.procs && Elects(s.procs[step.p], step.act)
  }

  /** Nothing is queued or about to be. */
  ghost predicate Calm(s: Inst) {
    !s.crashed && s.log.queue == [] && forall a :: a in s.procs ==> !PastSwap(s.procs[a])
  }

  lemma CallerCalm(s: Inst, p: Pid, act: CallerAct)
    requires p in s.procs && s.procs[p].Caller? && !PastSwap(s.procs[p]) && !Elects(s.procs[p], act) && !s.crashed
    ensures var s' := NextCaller(s, p, act);
            !s'.crashed && s'.log == s.log && !PastSwap(s'.procs[p])
  {
  }

  lemma WorkerCalm(s: Inst, w: Pid, job: WorkerAct)
    requires w in s.procs && s.procs[w].Worker? && s.log.queue == [] && !s.crashed
    ensures !NextWorker(s, w, job).crashed && NextWorker(s, w, job).log.queue == []
  {
  }

  lemma CalmStep(s: Inst, step: Step)
    requires Calm(s) && !Swaps(s, step)
    ensures Calm(Next(s, step))
  {
    var s' := Next(s, step);
    if step.Ask? && step.p in s.procs && s.procs[step.p].Caller? {
      CallerShared(s, step.p, s.procs[step.p], step.act);
      CallerCalm(s, step.p, step.act);
    } else if step.Work? && step.p in s.procs && s.procs[step.p].Worker? {
      WorkerShared(s, s.procs[step.p], step.job);
      WorkerCalm(s, step.p, step.job);
    }
    forall a | a in s'.procs
      ensures !PastSwap(s'.procs[a])
    {
      assert a in s.procs ==> !PastSwap(s.procs[a]);
    }
  }

  lemma {:induction false} CalmRun(s: Inst, steps: seq<Step>)
    requires Calm(s) && !Ever(Swaps, s, steps)
    ensures Calm(Run(s, steps))
  {
    if steps == [] {
    } else {
      EverLast(Swaps, s, steps);
      CalmRun(s, steps[..|steps| - 1]);
      CalmStep(Run(s, steps[..|steps| - 1]), steps[|steps| - 1]);
    }
  }

  lemma EverCons(bad: (Inst, Step) -> bool, s: Inst, step: Step, rest: seq<Step>)
    requires !bad(s, step) && !Ever(bad, Next(s, step), rest)
    ensures !Ever(bad, s, [step] + rest)
  {
    RunOne(s, step);
    EverLast(bad, s, [step]);
    EverAppend(bad, s, [step], rest);
  }

  /** A caller that lost the election goes on with nobody responsible. */
  ghost predicate Abandoned(s: Inst, a: Pid) {
    && Positions(s) && !Ticking(s) && !s.crashed && !s.isOpen && !Held(s) && s.log.queue == []
    && a in s.procs && PastSwap(s.procs[a]) && !s.procs[a].elected
  }

  lemma AbandonedStep(s: Inst, a: Pid)
    requires Abandoned(s, a)
    ensures var s' := Next(s, Ask(a, NextAct(s.procs[a].pc)));
            !Ticking(s') && (Failing(s') || (Abandoned(s', a) && Distance(s'.procs[a].pc) < Distance(s.procs[a].pc)))
  {
    var act := NextAct(s.procs[a].pc);
    var s' := NextCaller(s, a, act);
    assert ProcOk(s, s.procs[a]);
    CallerShared(s, a, s.procs[a], act);
    CallerPlaced(s, a, act);
    assert forall b :: b in s'.procs && b != a ==> b in s.procs && s'.procs[b] == s.procs[b];
    assert !Holder(s'.procs[a]);
  }

  lemma {:induction false} AbandonedFails(s: Inst, a: Pid) returns (later: seq<Step>)
    requires Abandoned(s, a)
    ensures !Ever(Swaps, s, later) && !Ticking(Run(s, later)) && Failing(Run(s, later))
    decreases Distance(s.procs[a].pc)
  {
    var step := Ask(a, NextAct(s.procs[a].pc));
    AbandonedStep(s, a);
    var rest := [];
    if !Failing(Next(s, step)) {
      rest := AbandonedFails(Next(s, step), a);
    }
    later := [step] + rest;
    RunCons(s, step, rest);
    EverCons(Swaps, s, step, rest);
  }

  /** The worker's exit leaves nobody responsible. */
  lemma ReleaseStep(s: Inst, w: Pid)
    requires Positions(s) && Responsible(s) && !Ticking(s) && !s.crashed
    requires w in s.procs && s.procs[w].Worker? && s.procs[w].wpc.Closing?
    ensures var s' := Next(s, Work(w, ClearOpened));
            Positions(s') && !Ticking(s') && !s'.crashed && !s'.isOpen && !Held(s') && s'.log == s.log
            && s'.procs == s.procs[w := Worker(s.procs[w].idle, Exited)]
  {
    var s' := Next(s, Work(w, ClearOpened));
    PositionsKept(s, Work(w, ClearOpened));
    assert Holder(s.procs[w]);
    assert forall b :: b in s'.procs && b != w ==> b in s.procs && s'.procs[b] == s.procs[b];
  }

  /** The run after the worker went idle can fail before the tick without another election. */
  ghost predicate CanFail(s: Inst) {
    exists later :: !Ever(Swaps, s, later) && !Ticking(Run(s, later)) && Failing(Run(s, later))
  }

  lemma ReliedOnFails(s: Inst, w: Pid)
    requires Positions(s) && Responsible(s) && !Ticking(s) && !s.crashed && ReliedOn(s)
    requires w in s.procs && s.procs[w].Worker? && s.procs[w].wpc.Closing?
    ensures CanFail(s)
  {
    var s', step := Next(s, Work(w, ClearOpened)), Work(w, ClearOpened);
    ReleaseStep(s, w);
    var rest := [];
    if s.log.queue == [] {
      var a :| a in s.procs && PastSwap(s.procs[a]) && !s.procs[a].elected;
      rest := AbandonedFails(s', a);
    }
    RunCons(s, step, rest);
    EverCons(Swaps, s, step, rest);
  }

  lemma UnreliedIsCalm(s: Inst, w: Pid)
    requires Responsible(s) && !Ticking(s) && !s.crashed && !ReliedOn(s) && w in s.procs && LiveWorker(s.procs[w])
    ensures Calm(s)
  {
    forall a | a in s.procs
      ensures !PastSwap(s.procs[a])
    {
      assert Holder(s.procs[w]);
      assert PastSwap(s.procs[a]) && s.procs[a].elected ==> Holder(s.procs[a]);
    }
  }

  /** Going idle before the tick can make an assertion fail or strand a request, unless a new
      caller is elected first, exactly if a request is queued or a caller that lost the
      election stands between its swap and its send. */
  lemma IdleFailsIff(life: int, gap: int, steps: seq<Step>, w: Pid)
    requires var s := Run(Fresh(life, gap), steps);
             !Ticking(s) && GoesIdle(s, Work(w, SeeIdle))
    ensures var s := Run(Fresh(life, gap), steps);
            CanFail(Next(s, Work(w, SeeIdle))) <==> ReliedOn(s)
  {
    var s := Run(Fresh(life, gap), steps);
    var s' := Next(s, Work(w, SeeIdle));
    RunPlaced(life, gap, steps);
    PositionsKept(s, Work(w, SeeIdle));
    ResponsibleKept(s, Work(w, SeeIdle));
    assert s'.procs == s.procs[w := Worker(true, Closing)] && s'.log == s.log;
    if ReliedOn(s) {
      if a :| a in s.procs && PastSwap(s.procs[a]) && !s.procs[a].elected {
        assert s'.procs[a] == s.procs[a];
      }
      ReliedOnFails(s', w);
    } else {
      UnreliedIsCalm(s, w);
      assert Calm(s');
      forall later | !Ever(Swaps, s', later)
        ensures !Failing(Run(s', later))
      {
        CalmRun(s', later);
      }
    }
  }

  /** If callers may still swap, going idle is never safe: one that arrives before the flag
      is cleared loses the election to a worker that leaves, and fails the assertion. */
  lemma IdleNeverSafe(life: int, gap: int, steps: seq<Step>, w: Pid, p: Pid, req: Request)
    requires var s := Run(Fresh(life, gap), steps);
             !Ticking(s) && GoesIdle(s, Work(w, SeeIdle)) && p !in s.procs
    ensures var e := Run(Fresh(life, gap), steps + IdleThenCall(w, p, req));
            e.crashed && !Ticking(e)
  {
    var s := Run(Fresh(life, gap), steps);
    RunPlaced(life, gap, steps);
    assert ProcOk(s, s.procs[w]) && Holder(s.procs[w]);
    RunAppend(Fresh(life, gap), steps, IdleThenCall(w, p, req));
    IdleRun(s, w, p, req, 6);
    assert IdleThenCall(w, p, req)[..6] == IdleThenCall(w, p, req);
  }

  lemma StrandedAt(s: Inst, req: Request)
    requires s.procs == map[0 := Caller(req, true, Awaiting), 1 := Worker(false, Selecting)]
    requires CanIdle(s, 1, 2) && s.stage.Waiting?
    ensures var stranded := IdleTable(s, 1, 2, req)[5];
            !Held(stranded) && !Ticking(stranded) && !stranded.crashed && stranded.log == s.log
  {
  }

  /** The run up to there. */
  lemma IdleFirstRun(life: int, gap: int, req: Request, k: nat)
    requires k <= 6
    ensures Run(Fresh(life, gap), Enter(0, req) + Serve(0, 1) + IdleThenCall(1, 2, req)[..k]) ==
            IdleTable(Served(Fresh(life, gap), 0, 1, req), 1, 2, req)[k]
  {
    ServeRun(Fresh(life, gap), 0, 1, req);
    RunAppend(Fresh(life, gap), Enter(0, req) + Serve(0, 1), IdleThenCall(1, 2, req)[..k]);
    IdleRun(Served(Fresh(life, gap), 0, 1, req), 1, 2, req, k);
  }

  /** Both failures in one run: a request is queued with nobody responsible for it, and the
      next step fails the assertion that the queue is open. */
  lemma IdleFirstStrandsAndPanics(life: int, gap: int, req: Request)
    ensures var serving := Enter(0, req) + Serve(0, 1);
            var stranded := Run(Fresh(life, gap), serving + IdleThenCall(1, 2, req)[..5]);
            && stranded.log.queue == [Call(0, req)] && !Held(stranded) && !Ticking(stranded) && !stranded.crashed
            && Run(Fresh(life, gap), serving + IdleThenCall(1, 2, req)).crashed
  {
    var s := Served(Fresh(life, gap), 0, 1, req);
    assert s.procs == map[0 := Caller(req, true, Awaiting), 1 := Worker(false, Selecting)];
    StrandedAt(s, req);
    IdleFirstRun(life, gap, req, 5);
    IdleFirstRun(life, gap, req, 6);
    assert IdleThenCall(1, 2, req)[..6] == IdleThenCall(1, 2, req);
  }
}
