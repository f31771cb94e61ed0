/** How many goroutines can serve an instance at once. A slot is a goroutine that serves or
    may still come to, a clear flag that a caller may set, or a shutdown that may still clear
    it. No step makes a slot, so two is the most in every run, and a second server can appear
    exactly as long as two slots are left (pkg/runner/instances.go:56-73, 191-217). */
module InstanceSlots {
  import opened InstanceProtocol
  import opened InstanceRuns

  ghost function Holders(s: Inst): set<Pid> {
    set a | a in s.procs && Holder(s.procs[a])
  }

  ghost function CommittedProcs(s: Inst): set<Pid> {
    set a | a in s.procs && Committed(s.procs[a])
  }

  lemma AtMostOneElement(s: set<Pid>)
    requires forall a, b :: a in s && b in s ==> a == b
    ensures |s| <= 1 && (|s| == 1 <==> s != {})
  {
    if s != {} {
      var a :| a in s;
      assert s == {a};
    }
  }

  /** A worker or committed caller, or an elected caller that may still become one. */
  predicate Candidate(p: Proc) {
    Committed(p) || (p.Caller? && p.elected && (p.pc.Checking? || p.pc.Resetting?))
  }

  ghost function Candidates(s: Inst): set<Pid> {
    set a | a in s.procs && Candidate(s.procs[a])
  }

  function One(b: bool): nat {
    if b then 1 else 0
  }

  /** The shutdown has not cleared the flag yet. */
  predicate WillClear(s: Inst) {
    s.stage.Waiting? || s.stage.Ticked?
  }

  ghost function Slots(s: Inst): nat {
    |Candidates(s)| + One(!s.isOpen) + One(WillClear(s))
  }

  // ---- no step makes a slot

  lemma SubsetSize(a: set<Pid>, b: set<Pid>)
    requires a <= b
    ensures |a| <= |b| && (|a| == |b| ==> a == b)
  {
    assert b == a + (b - a);
  }

  /** The candidates are the old ones, perhaps without one or with one more. */
  lemma Recount(a: set<Pid>, b: set<Pid>, lost: set<Pid>, won: set<Pid>)
    requires lost <= a && b <= a - lost + won
    ensures |b| <= |a| - |lost| + |won|
  {
    SubsetSize(b, a - lost + won);
    assert a == (a - lost) + lost;
  }

  lemma CallerCandidate(s: Inst, p: Pid, act: CallerAct)
    requires p in s.procs && s.procs[p].Caller? && ProcOk(s, s.procs[p])
    ensures var c, s' := s.procs[p], NextCaller(s, p, act);
            && s'.isOpen == (s.isOpen || Elects(c, act)) && s'.stage == s.stage
            && (Elects(c, act) ==> !Candidate(c) && (Candidate(s'.procs[p]) <==> !s.isOpen))
            && (Spawns(s, c, act) ==> Candidate(c) && !Candidate(s'.procs[p]))
            && (!Elects(c, act) && Candidate(s'.procs[p]) ==> Candidate(c))
  {
  }

  lemma CallerCandidates(s: Inst, p: Pid, act: CallerAct)
    requires p in s.procs && s.procs[p].Caller? && ProcOk(s, s.procs[p])
    ensures var c, s' := s.procs[p], NextCaller(s, p, act);
            && (Elects(c, act) && !s.isOpen ==> Candidates(s') <= Candidates(s) + {p})
            && (Spawns(s, c, act) ==> p in Candidates(s) && Candidates(s') <= Candidates(s) - {p} + {act.w})
            && (!(Elects(c, act) && !s.isOpen) && !Spawns(s, c, act) ==> Candidates(s') <= Candidates(s))
  {
    CallerShared(s, p, s.procs[p], act);
    CallerCandidate(s, p, act);
  }

  lemma SlotsByCaller(s: Inst, p: Pid, act: CallerAct)
    requires Positions(s) && p in s.procs && s.procs[p].Caller?
    ensures Slots(NextCaller(s, p, act)) <= Slots(s)
  {
    var c, s' := s.procs[p], NextCaller(s, p, act);
    assert ProcOk(s, c);
    CallerCandidate(s, p, act);
    CallerCandidates(s, p, act);
    if Elects(c, act) && !s.isOpen {
      Recount(Candidates(s), Candidates(s'), {}, {p});
    } else if Spawns(s, c, act) {
      Recount(Candidates(s), Candidates(s'), {p}, {act.w});
    } else {
      Recount(Candidates(s), Candidates(s'), {}, {});
    }
  }

  lemma WorkerCandidate(s: Inst, w: Pid, job: WorkerAct)
    requires w in s.procs && s.procs[w].Worker?
    ensures var k, s' := s.procs[w], NextWorker(s, w, job);
            && s'.stage == s.stage
            && (Candidate(s'.procs[w]) ==> Candidate(k))
            && (s'.isOpen == s.isOpen || (Candidate(k) && !Candidate(s'.procs[w])))
  {
  }

  lemma WorkerCandidates(s: Inst, w: Pid, job: WorkerAct)
    requires w in s.procs && s.procs[w].Worker?
    ensures var s' := NextWorker(s, w, job);
            Candidates(s') <= Candidates(s) && (s'.isOpen != s.isOpen ==> w in Candidates(s) && w !in Candidates(s'))
  {
    WorkerShared(s, s.procs[w], job);
    WorkerCandidate(s, w, job);
  }

  lemma SlotsByWorker(s: Inst, w: Pid, job: WorkerAct)
    requires w in s.procs && s.procs[w].Worker?
    ensures Slots(NextWorker(s, w, job)) <= Slots(s)
  {
    var s' := NextWorker(s, w, job);
    WorkerCandidates(s, w, job);
    WorkerShared(s, s.procs[w], job);
    if s'.isOpen == s.isOpen {
      Recount(Candidates(s), Candidates(s'), {}, {});
    } else {
      Recount(Candidates(s), Candidates(s'), {w}, {});
    }
  }

  /** No step makes a slot. */
  lemma SlotsStep(s: Inst, step: Step)
    requires Positions(s)
    ensures Slots(Next(s, step)) <= Slots(s)
  {
    if s.crashed {
    } else if step.Ask? {
      if step.p in s.procs && s.procs[step.p].Caller? {
        SlotsByCaller(s, step.p, step.act);
      }
    } else if step.Work? {
      if step.p in s.procs && s.procs[step.p].Worker? {
        SlotsByWorker(s, step.p, step.job);
      }
    } else {
      SubsetSize(Candidates(Next(s, step)), Candidates(s));
    }
  }

  lemma {:induction false} SlotsFall(life: int, gap: int, steps: seq<Step>, later: seq<Step>)
    ensures Slots(Run(Fresh(life, gap), steps + later)) <= Slots(Run(Fresh(life, gap), steps))
    decreases |later|
  {
    if later == [] {
      assert steps + later == steps;
    } else {
      var before, last := later[..|later| - 1], later[|later| - 1];
      var all := steps + before;
      SlotsFall(life, gap, steps, before);
      assert steps + later == all + [last];
      RunLast(Fresh(life, gap), all, last);
      RunPlaced(life, gap, all);
      SlotsStep(Run(Fresh(life, gap), all), last);
    }
  }

  /** In every run at most two slots are left, and before the tick exactly two. */
  lemma TwoSlots(life: int, gap: int, steps: seq<Step>)
    ensures var s := Run(Fresh(life, gap), steps);
            Slots(s) <= 2 && (!Ticking(s) ==> Slots(s) == 2)
  {
    var s := Run(Fresh(life, gap), steps);
    SlotsFall(life, gap, [], steps);
    assert [] + steps == steps;
    assert Candidates(Fresh(life, gap)) == {};
    if !Ticking(s) {
      OneHolderBeforeTick(life, gap, steps);
      forall a | a in s.procs
        ensures Candidate(s.procs[a]) <==> Holder(s.procs[a])
      {
        RunPlaced(life, gap, steps);
        assert ProcOk(s, s.procs[a]);
      }
      assert Candidates(s) == Holders(s);
    }
  }

  lemma OneHolderBeforeTick(life: int, gap: int, steps: seq<Step>)
    requires !Ticking(Run(Fresh(life, gap), steps))
    ensures var s := Run(Fresh(life, gap), steps);
            |Holders(s)| <= 1 && (s.isOpen <==> |Holders(s)| == 1)
  {
    var s := Run(Fresh(life, gap), steps);
    RunPlaced(life, gap, steps);
    AtMostOneElement(Holders(s));
    if s.isOpen {
      var h :| h in s.procs && Holder(s.procs[h]);
      assert h in Holders(s);
    } else {
      assert Holders(s) == {};
    }
  }

  /** In every interleaving: before the shutdown tick the flag is set exactly while one
      goroutine is responsible, so an instance is never left marked open with nobody serving
      it. At every moment there are at most as many workers and committed callers as slots
      were left at any earlier one, so never more than two, and at most one as long as no
      caller has reset the timer after the tick. */
  lemma OneServer(life: int, gap: int, steps: seq<Step>, later: seq<Step>)
    ensures var s, e := Run(Fresh(life, gap), steps), Run(Fresh(life, gap), steps + later);
            && (!Ticking(s) ==> |Holders(s)| <= 1 && (s.isOpen <==> |Holders(s)| == 1))
            && |CommittedProcs(e)| <= Slots(s) <= 2
            && (!Ever(LateReset, Fresh(life, gap), steps) ==> |CommittedProcs(s)| <= 1)
  {
    var s, e := Run(Fresh(life, gap), steps), Run(Fresh(life, gap), steps + later);
    if !Ticking(s) {
      OneHolderBeforeTick(life, gap, steps);
    }
    TwoSlots(life, gap, steps);
    SlotsFall(life, gap, steps, later);
    SubsetSize(CommittedProcs(e), Candidates(e));
    DoomedIff(life, gap, steps);
    if !Doomed(s) {
      OneCommittedUnlessDoomed(life, gap, steps);
      AtMostOneElement(CommittedProcs(s));
    }
  }

  /** A worker may go idle with requests still queued. Then, before the tick, the flag is
      clear and the next caller to swap it is elected, so the queue is served again. */
  lemma NextCallerIsElected(life: int, gap: int, steps: seq<Step>, p: Pid)
    requires var s := Run(Fresh(life, gap), steps);
             !Ticking(s) && Holders(s) == {} && p in s.procs && s.procs[p].Caller? && s.procs[p].pc.Swapping?
    ensures var s := NextCaller(Run(Fresh(life, gap), steps), p, Swap);
            Holders(s) == {p} && s.isOpen
  {
    var s, s' := Run(Fresh(life, gap), steps), NextCaller(Run(Fresh(life, gap), steps), p, Swap);
    OneHolderBeforeTick(life, gap, steps);
    assert p in Holders(s') && Holders(s') <= Holders(s) + {p};
  }

  // ---- two slots are enough

  predicate Live(s: Inst) {
    !s.crashed && s.registered
  }

  /** Only new callers have come; they have not sent anything. */
  ghost predicate Joined(s: Inst, e: Inst) {
    && e.log == s.log && e.closed == s.closed
    && (forall a :: a in s.procs ==> a in e.procs && e.procs[a] == s.procs[a])
    && (forall a :: a in e.procs && a !in s.procs ==> e.procs[a].Caller? && (e.procs[a].pc.Checking? || e.procs[a].pc.Recording?))
  }

  lemma {:induction false} Bound(ps: set<Pid>) returns (b: nat)
    ensures forall p :: p in ps ==> p < b
    decreases ps
  {
    if ps == {} {
      b := 0;
    } else {
      var p :| p in ps;
      var rest := Bound(ps - {p});
      b := if p < rest then rest else p + 1;
      assert forall q :: q in ps ==> q == p || q in ps - {p};
    }
  }

  /** A new caller arrives and swaps the flag. */
  function Arrival(p: Pid): seq<Step> {
    [Arrive(p, ""), Ask(p, LookUp), Ask(p, Swap)]
  }

  function Arrived(s: Inst, p: Pid): Inst {
    To(s.(isOpen := true), p, Caller("", !s.isOpen, Checking))
  }

  lemma ArrivalRun(s: Inst, p: Pid)
    requires Live(s) && p !in s.procs
    ensures Run(s, Arrival(p)) == Arrived(s, p)
  {
    var looking, swapping := To(s, p, Caller("", false, Looking)), To(s, p, Caller("", false, Swapping));
    FindsInstance(s, p, "");
    SwapsFlag(s, p, "");
    RunTable(s, Arrival(p), [s, looking, swapping, Arrived(s, p)], 3);
    assert Arrival(p)[..3] == Arrival(p);
  }

  lemma WinnerAdds(s: Inst, p: Pid)
    requires !s.isOpen && p !in s.procs
    ensures Slots(Arrived(s, p)) == Slots(s) && Joined(s, Arrived(s, p))
  {
    assert p !in Candidates(s);
    assert Candidates(Arrived(s, p)) == Candidates(s) + {p};
  }

  /** With the flag clear, a new caller is elected. */
  lemma OpenFlag(s: Inst) returns (later: seq<Step>)
    requires Live(s)
    ensures var e := Run(s, later);
            Live(e) && e.isOpen && e.stage == s.stage && Slots(e) == Slots(s) && Joined(s, e)
  {
    if s.isOpen {
      later := [];
    } else {
      var p := Bound(s.procs.Keys);
      later := Arrival(p);
      ArrivalRun(s, p);
      WinnerAdds(s, p);
    }
  }

  /** The shutdown goes on until it has cleared the flag. */
  lemma ClearFlag(s: Inst) returns (later: seq<Step>)
    requires Live(s) && WillClear(s) && s.isOpen
    ensures var e := Run(s, later);
            Live(e) && !e.isOpen && !WillClear(e) && e.procs == s.procs && e.log == s.log && e.closed == s.closed
  {
    if s.stage.Waiting? {
      var time := if s.clock.now < s.clock.deadline then s.clock.deadline - s.clock.now else 0;
      var s1 := Next(s, Pass(time));
      var s2 := Next(s1, Tick);
      later := [Pass(time), Tick, StopStep];
      RunTable(s, later, [s, s1, s2, Next(s2, StopStep)], 3);
      assert later[..3] == later;
    } else {
      later := [StopStep];
      RunOne(s, StopStep);
    }
  }

  /** All slots become candidates. */
  lemma FillSlots(s: Inst) returns (later: seq<Step>)
    requires Live(s)
    ensures var e := Run(s, later);
            Live(e) && e.isOpen && |Candidates(e)| == Slots(s) && Joined(s, e)
  {
    var open := OpenFlag(s);
    var s1 := Run(s, open);
    if WillClear(s1) {
      var clear := ClearFlag(s1);
      var s2 := Run(s1, clear);
      assert Candidates(s2) == Candidates(s1);
      var again := OpenFlag(s2);
      RunAppend(s1, clear, again);
      RunAppend(s, open, clear + again);
      later := open + (clear + again);
    } else {
      later := open;
    }
  }

  /** A caller passes the check and resets the timer. */
  lemma ResetRun(s: Inst, p: Pid, elected: bool)
    requires !s.crashed && s.isOpen
    ensures Run(To(s, p, Caller("", elected, Checking)), [Ask(p, Check), Ask(p, Reset)]) ==
            To(Armed(s), p, Caller("", elected, Recording(s.clock.armed, s.clock.now)))
  {
    var checking, resetting := To(s, p, Caller("", elected, Checking)), To(s, p, Caller("", elected, Resetting));
    PassesCheck(s, p, "", elected);
    ResetsTimer(s, p, "", elected);
    RunOne(resetting, Ask(p, Reset));
    RunCons(checking, Ask(p, Check), [Ask(p, Reset)]);
    assert [Ask(p, Check)] + [Ask(p, Reset)] == [Ask(p, Check), Ask(p, Reset)];
  }

  lemma LoserAdds(s: Inst, e: Inst, p: Pid)
    requires p !in s.procs && p in e.procs && e.procs == s.procs[p := e.procs[p]]
    requires e.log == s.log && e.closed == s.closed
    requires e.procs[p].Caller? && !e.procs[p].elected && e.procs[p].pc.Recording?
    ensures Candidates(e) == Candidates(s) && Joined(s, e)
  {
  }

  /** A new caller that loses the election resets the timer. */
  lemma ArmTimer(s: Inst) returns (later: seq<Step>)
    requires Live(s) && s.isOpen
    ensures var e := Run(s, later);
            Live(e) && e.isOpen && e.clock.armed && Candidates(e) == Candidates(s) && Joined(s, e)
  {
    var p := Bound(s.procs.Keys);
    ArrivalRun(s, p);
    assert s.(isOpen := true) == s;
    ResetRun(s, p, false);
    later := Arrival(p) + [Ask(p, Check), Ask(p, Reset)];
    RunAppend(s, Arrival(p), [Ask(p, Check), Ask(p, Reset)]);
    LoserAdds(s, To(Armed(s), p, Caller("", false, Recording(s.clock.armed, s.clock.now))), p);
  }

  /** A candidate commits while the flag is set and the timer is active. */
  lemma {:induction false} Commit(s: Inst, a: Pid) returns (later: seq<Step>)
    requires !s.crashed && s.isOpen && s.clock.armed && a in s.procs && Candidate(s.procs[a])
    ensures var e := Run(s, later);
            && !e.crashed && e.isOpen && e.clock.armed && a in e.procs && Committed(e.procs[a])
            && e.procs == s.procs[a := e.procs[a]]
    decreases if s.procs[a].Caller? && s.procs[a].pc.Checking? then 2 else 1
  {
    var c := s.procs[a];
    if Committed(c) {
      later := [];
    } else {
      var step := Ask(a, if c.pc.Checking? then Check else Reset);
      assert To(s, a, c) == s;
      if c.pc.Checking? {
        PassesCheck(s, a, c.req, true);
        var rest := Commit(Next(s, step), a);
        RunCons(s, step, rest);
        later := [step] + rest;
      } else {
        ResetsTimer(s, a, c.req, true);
        RunOne(s, step);
        later := [step];
      }
    }
  }

  lemma TwoElements(s: set<Pid>) returns (a: Pid, b: Pid)
    requires |s| >= 2
    ensures a in s && b in s && a != b
  {
    a :| a in s;
    assert s == {a} + (s - {a});
    b :| b in s - {a};
  }

  lemma CommitBoth(s: Inst) returns (later: seq<Step>)
    requires !s.crashed && s.isOpen && s.clock.armed && |Candidates(s)| == 2
    ensures !OneCommitted(Run(s, later)) && !Run(s, later).crashed
  {
    var a, b := TwoElements(Candidates(s));
    var first := Commit(s, a);
    var m := Run(s, first);
    var second := Commit(m, b);
    assert Committed(Run(m, second).procs[a]) && Committed(Run(m, second).procs[b]);
    RunAppend(s, first, second);
    later := first + second;
  }

  lemma SecondServer(s: Inst) returns (later: seq<Step>)
    requires Live(s) && Slots(s) == 2
    ensures !OneCommitted(Run(s, later)) && !Run(s, later).crashed
  {
    var fill := FillSlots(s);
    var m := Run(s, fill);
    var arm := ArmTimer(m);
    var commit := CommitBoth(Run(m, arm));
    RunAppend(m, arm, commit);
    RunAppend(s, fill, arm + commit);
    later := fill + (arm + commit);
  }

  // ---- without new callers

  predicate Swapper(p: Proc) {
    p.Caller? && p.pc.Swapping?
  }

  /** Lost the election, and has not reset the timer yet. */
  predicate Loser(p: Proc) {
    p.Caller? && !p.elected && (p.pc.Checking? || p.pc.Resetting?)
  }

  ghost function Swappers(s: Inst): set<Pid> {
    set a | a in s.procs && Swapper(s.procs[a])
  }

  ghost function Losers(s: Inst): set<Pid> {
    set a | a in s.procs && Loser(s.procs[a])
  }

  /** The callers that are there can set the flag and see to it that the timer is active. */
  ghost predicate Unaided(s: Inst) {
    && (s.isOpen || Swappers(s) != {})
    && (s.clock.armed || |Swappers(s)| + |Losers(s)| > One(!s.isOpen))
  }

  lemma SwapMoves(s: Inst, p: Pid)
    requires !s.crashed && p in s.procs && Swapper(s.procs[p])
    ensures Next(s, Ask(p, Swap)) == To(s.(isOpen := true), p, Caller(s.procs[p].req, !s.isOpen, Checking))
  {
  }

  /** A caller that is there resets the timer. */
  lemma {:induction false} ArmWith(s: Inst, l: Pid) returns (later: seq<Step>)
    requires !s.crashed && s.isOpen && l in s.procs && (Swapper(s.procs[l]) || Loser(s.procs[l]))
    ensures var e := Run(s, later);
            !e.crashed && e.isOpen && e.clock.armed && Candidates(e) == Candidates(s)
    decreases if s.procs[l].pc.Swapping? then 2 else if s.procs[l].pc.Checking? then 1 else 0
  {
    var c := s.procs[l];
    assert To(s, l, c) == s && s.(isOpen := true) == s;
    if c.pc.Resetting? {
      ResetsTimer(s, l, c.req, false);
      RunOne(s, Ask(l, Reset));
      later := [Ask(l, Reset)];
    } else {
      var step := Ask(l, if c.pc.Swapping? then Swap else Check);
      if c.pc.Swapping? {
        SwapMoves(s, l);
      } else {
        PassesCheck(s, l, c.req, false);
      }
      assert Candidates(Next(s, step)) == Candidates(s);
      var rest := ArmWith(Next(s, step), l);
      RunCons(s, step, rest);
      later := [step] + rest;
    }
  }

  lemma CommitUnaided(s: Inst) returns (later: seq<Step>)
    requires !s.crashed && s.isOpen && |Candidates(s)| == 2 && (s.clock.armed || Swappers(s) + Losers(s) != {})
    ensures !OneCommitted(Run(s, later)) && !Run(s, later).crashed
  {
    if s.clock.armed {
      later := CommitBoth(s);
    } else {
      var l :| l in Swappers(s) + Losers(s);
      var arm := ArmWith(s, l);
      var commit := CommitBoth(Run(s, arm));
      RunAppend(s, arm, commit);
      later := arm + commit;
    }
  }

  lemma SwapCounts(s: Inst, m: Inst, p: Pid)
    requires p in Swappers(s) && p in m.procs && m.procs == s.procs[p := m.procs[p]]
    requires m.procs[p].Caller? && m.procs[p].elected && m.procs[p].pc.Checking?
    ensures |Candidates(m)| == |Candidates(s)| + 1
    ensures |Swappers(m)| + |Losers(m)| == |Swappers(s)| + |Losers(s)| - 1
  {
    assert Candidates(m) == Candidates(s) + {p} && p !in Candidates(s);
    assert Swappers(s) == (Swappers(s) - {p}) + {p};
    assert Swappers(m) == Swappers(s) - {p} && Losers(m) == Losers(s);
  }

  lemma SecondUnaided(s: Inst) returns (later: seq<Step>)
    requires !s.crashed && Slots(s) == 2 && !WillClear(s) && Unaided(s)
    ensures !OneCommitted(Run(s, later)) && !Run(s, later).crashed
  {
    if s.isOpen {
      later := CommitUnaided(s);
    } else {
      var p :| p in Swappers(s);
      var m := Next(s, Ask(p, Swap));
      SwapMoves(s, p);
      SwapCounts(s, m, p);
      var rest := CommitUnaided(m);
      RunCons(s, Ask(p, Swap), rest);
      later := [Ask(p, Swap)] + rest;
    }
  }

  // ---- and without them nothing else helps

  /** A second worker or committed caller may still appear. */
  ghost predicate CanSecond(s: Inst) {
    Slots(s) == 2 && (s.registered || |CommittedProcs(s)| == 2 || Unaided(s))
  }

  /** What a caller's operation does to the others' chances once nobody new comes. */
  lemma CallerAids(s: Inst, p: Pid, act: CallerAct)
    requires !s.registered && p in s.procs && s.procs[p].Caller? && ProcOk(s, s.procs[p])
    ensures var c, s' := s.procs[p], NextCaller(s, p, act);
            && s'.clock.armed == (s.clock.armed || (act.Reset? && c.pc.Resetting?))
            && (Swapper(s'.procs[p]) ==> Swapper(c)) && (Elects(c, act) ==> !Swapper(s'.procs[p]))
            && (Loser(s'.procs[p]) ==> Loser(c) || (Elects(c, act) && s.isOpen))
            && (Committed(s'.procs[p]) ==> Committed(c) || Commits(s, c, act))
            && (act.Reset? && c.pc.Resetting? && c.elected && !s.clock.armed ==> Candidate(c) && !Candidate(s'.procs[p]))
  {
    CallerArms(s, p, s.procs[p], act);
  }

  /** The same, counted. */
  lemma AidCounts(s: Inst, p: Pid, act: CallerAct)
    requires Positions(s) && !s.registered && p in s.procs && s.procs[p].Caller?
    ensures var c, s' := s.procs[p], NextCaller(s, p, act);
            && Swappers(s') <= Swappers(s)
            && (Elects(c, act) ==> p in Swappers(s) && p !in Swappers(s'))
            && Losers(s') <= Losers(s) + if Elects(c, act) && s.isOpen then {p} else {}
  {
    var c := s.procs[p];
    assert ProcOk(s, c);
    CallerShared(s, p, c, act);
    CallerAids(s, p, act);
  }

  /** An elected caller whose reset fails gives up its slot. */
  lemma FailedResetCosts(s: Inst, p: Pid)
    requires Positions(s) && !s.registered && !s.clock.armed && p in s.procs && s.procs[p].Caller?
    requires s.procs[p].elected && s.procs[p].pc.Resetting?
    ensures Slots(NextCaller(s, p, Reset)) < Slots(s)
  {
    var s' := NextCaller(s, p, Reset);
    assert ProcOk(s, s.procs[p]);
    CallerShared(s, p, s.procs[p], Reset);
    CallerCandidate(s, p, Reset);
    CallerAids(s, p, Reset);
    Recount(Candidates(s), Candidates(s'), {p}, {});
  }

  lemma AidByCaller(s: Inst, p: Pid, act: CallerAct)
    requires Positions(s) && !s.registered && p in s.procs && s.procs[p].Caller?
    requires !Unaided(s) && Slots(NextCaller(s, p, act)) >= Slots(s)
    ensures !Unaided(NextCaller(s, p, act))
  {
    var c, s' := s.procs[p], NextCaller(s, p, act);
    assert ProcOk(s, c);
    CallerCandidate(s, p, act);
    CallerAids(s, p, act);
    AidCounts(s, p, act);
    SubsetSize(Swappers(s'), Swappers(s));
    if !s.isOpen && Swappers(s) == {} {
      assert !s'.isOpen && Swappers(s') == {};
    } else if Elects(c, act) {
      Recount(Swappers(s), Swappers(s'), {p}, {});
      Recount(Losers(s), Losers(s'), {}, if s.isOpen then {p} else {});
    } else {
      Recount(Losers(s), Losers(s'), {}, {});
      if act.Reset? && c.pc.Resetting? {
        if c.elected {
          FailedResetCosts(s, p);
        } else {
          SubsetSize({p}, Losers(s));
        }
      }
    }
  }

  lemma AidByWorker(s: Inst, w: Pid, job: WorkerAct)
    requires w in s.procs && s.procs[w].Worker? && !Unaided(s)
    ensures !Unaided(NextWorker(s, w, job))
  {
    var s' := NextWorker(s, w, job);
    WorkerShared(s, s.procs[w], job);
    assert s'.clock == s.clock && (s'.isOpen ==> s.isOpen);
    assert Swappers(s') == Swappers(s) && Losers(s') == Losers(s);
  }

  /** The number of committed goroutines grows only by an elected caller's reset, which needs
      the timer. */
  lemma CommittedByCaller(s: Inst, p: Pid, act: CallerAct)
    requires Positions(s) && !s.registered && p in s.procs && s.procs[p].Caller?
    requires Slots(s) == 2 && !Unaided(s) && |CommittedProcs(s)| <= 1
    ensures |CommittedProcs(NextCaller(s, p, act))| <= 1
  {
    var c, s' := s.procs[p], NextCaller(s, p, act);
    assert ProcOk(s, c);
    CallerShared(s, p, c, act);
    CallerAids(s, p, act);
    if Commits(s, c, act) {
      assert CommittedProcs(s') <= Candidates(s);
      SubsetSize(CommittedProcs(s'), Candidates(s));
    } else if Spawns(s, c, act) {
      Recount(CommittedProcs(s), CommittedProcs(s'), {p}, {act.w});
    } else {
      SubsetSize(CommittedProcs(s'), CommittedProcs(s));
    }
  }

  lemma CommittedByWorker(s: Inst, w: Pid, job: WorkerAct)
    requires w in s.procs && s.procs[w].Worker?
    ensures |CommittedProcs(NextWorker(s, w, job))| <= |CommittedProcs(s)|
  {
    WorkerShared(s, s.procs[w], job);
    SubsetSize(CommittedProcs(NextWorker(s, w, job)), CommittedProcs(s));
  }

  lemma CommittedFew(s: Inst)
    requires Slots(s) <= 2 && !CanSecond(s)
    ensures |CommittedProcs(s)| <= 1 || s.registered
  {
    SubsetSize(CommittedProcs(s), Candidates(s));
  }

  lemma OthersAid(s: Inst, step: Step)
    requires !step.Ask? && !step.Work? && Positions(s) && !s.registered
    ensures var s' := Next(s, step);
            && s'.isOpen == s.isOpen && s'.clock.armed == s.clock.armed && s'.registered == s.registered
            && Swappers(s') == Swappers(s) && Losers(s') == Losers(s) && CommittedProcs(s') == CommittedProcs(s)
  {
  }

  /** Once a second one cannot appear any more, it never can. */
  lemma HopelessStep(s: Inst, step: Step)
    requires Positions(s) && Slots(s) <= 2 && !s.registered && !CanSecond(s)
    ensures !Next(s, step).registered && !CanSecond(Next(s, step))
  {
    var s' := Next(s, step);
    PositionsKept(s, step);
    StageKept(s, step);
    SlotsStep(s, step);
    CommittedFew(s);
    if s.crashed || Slots(s') <= 1 {
    } else if step.Ask? {
      if step.p in s.procs && s.procs[step.p].Caller? {
        AidByCaller(s, step.p, step.act);
        CommittedByCaller(s, step.p, step.act);
      }
    } else if step.Work? {
      if step.p in s.procs && s.procs[step.p].Worker? {
        AidByWorker(s, step.p, step.job);
        CommittedByWorker(s, step.p, step.job);
      }
    } else {
      OthersAid(s, step);
    }
  }

  lemma {:induction false} Hopeless(life: int, gap: int, steps: seq<Step>, later: seq<Step>)
    requires var s := Run(Fresh(life, gap), steps); !s.registered && !CanSecond(s)
    ensures var e := Run(Run(Fresh(life, gap), steps), later); !e.registered && !CanSecond(e)
  {
    if later == [] {
    } else {
      var before := later[..|later| - 1];
      Hopeless(life, gap, steps, before);
      RunAppend(Fresh(life, gap), steps, before);
      RunPlaced(life, gap, steps + before);
      TwoSlots(life, gap, steps + before);
      HopelessStep(Run(Run(Fresh(life, gap), steps), before), later[|later| - 1]);
    }
  }

  /** For every run: a second worker or committed caller can still appear if and only if two
      slots are left and, once nobody new can come in, two are committed already or the
      callers that are there can set the flag and see to the timer. */
  lemma SecondServerIff(life: int, gap: int, steps: seq<Step>)
    requires !Run(Fresh(life, gap), steps).crashed
    ensures var s := Run(Fresh(life, gap), steps);
            (exists later :: !OneCommitted(Run(s, later)) && !Run(s, later).crashed) <==> CanSecond(s)
  {
    var s := Run(Fresh(life, gap), steps);
    TwoSlots(life, gap, steps);
    RunPlaced(life, gap, steps);
    if CanSecond(s) {
      var later := Second(s);
    } else {
      forall later
        ensures OneCommitted(Run(s, later))
      {
        NoSecond(life, gap, steps, later);
      }
    }
  }

  lemma Second(s: Inst) returns (later: seq<Step>)
    requires Positions(s) && !s.crashed && CanSecond(s)
    ensures !OneCommitted(Run(s, later)) && !Run(s, later).crashed
  {
    if s.registered {
      later := SecondServer(s);
    } else if Unaided(s) {
      later := SecondUnaided(s);
    } else {
      var a, b := TwoElements(CommittedProcs(s));
      later := [];
    }
  }

  lemma NoSecond(life: int, gap: int, steps: seq<Step>, later: seq<Step>)
    requires !CanSecond(Run(Fresh(life, gap), steps))
    ensures OneCommitted(Run(Run(Fresh(life, gap), steps), later))
  {
    var s := Run(Fresh(life, gap), steps);
    RunAppend(Fresh(life, gap), steps, later);
    OneServer(life, gap, steps, later);
    if !s.registered {
      Hopeless(life, gap, steps, later);
      TwoSlots(life, gap, steps + later);
      CommittedFew(Run(s, later));
    }
    FewerThanTwo(Run(s, later));
  }

  lemma FewerThanTwo(s: Inst)
    requires |CommittedProcs(s)| <= 1
    ensures OneCommitted(s)
  {
    forall a, b | a in s.procs && b in s.procs && Committed(s.procs[a]) && Committed(s.procs[b])
      ensures a == b
    {
      SubsetSize({a, b}, CommittedProcs(s));
    }
  }
}
