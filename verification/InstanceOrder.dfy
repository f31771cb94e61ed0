/** When the guest may get requests out of order: two workers hold a request at once. It
    takes two slots that no reply to a departed caller holds up, and a queue that somebody
    can send to or drain (pkg/runner/grpc.go:354-382). */
module InstanceOrder {
  import opened InstanceProtocol
  import opened InstanceQueue
  import opened InstanceRuns
  import opened InstanceSlots

  ghost function InHands(s: Inst): set<Pid> {
    set a | a in s.procs && InHand(s.procs[a])
  }

  /** In every run at most as many calls are in hand as slots were left at any earlier moment,
      so never more than two. */
  lemma AtMostTwoInHand(life: int, gap: int, steps: seq<Step>, later: seq<Step>)
    ensures |InHands(Run(Fresh(life, gap), steps + later))| <= Slots(Run(Fresh(life, gap), steps)) <= 2
  {
    TwoSlots(life, gap, steps);
    SlotsFall(life, gap, steps, later);
    var e := Run(Fresh(life, gap), steps + later);
    SubsetSize(InHands(e), Candidates(e));
  }

  // ---- who can still take a request

  /** The caller waits for the reply, or will. */
  predicate Expected(s: Inst, c: Call) {
    c.caller in s.procs && Expects(s.procs[c.caller])
  }

  predicate Expects(p: Proc) {
    p.Caller? && (p.pc.Awaiting? || p.pc.Spawning?)
  }

  /** A worker that replies to a caller that has left: the send never completes. */
  predicate Stuck(s: Inst, p: Proc) {
    p.Worker? && p.wpc.Replying? && !Expected(s, p.wpc.call)
  }

  ghost function StuckProcs(s: Inst): set<Pid> {
    set a | a in s.procs && Stuck(s, s.procs[a])
  }

  /** The slots that are not held up. */
  ghost function Servers(s: Inst): int {
    Slots(s) - |StuckProcs(s)|
  }

  /** A goroutine that can take a request from a full queue. */
  predicate Drains(s: Inst, p: Proc) {
    match p
    case Caller(_, elected, pc) => elected && pc.Spawning?
    case Worker(_, wpc) =>
      wpc.Selecting? || wpc.Rearming? || ((wpc.Invoking? || wpc.Replying?) && Expected(s, wpc.call))
  }

  ghost predicate HasRoom(s: Inst) {
    |s.log.queue| < QUEUE_MAX || exists a :: a in s.procs && Drains(s, s.procs[a])
  }

  // ---- stuck workers stay stuck

  lemma RepliedWasSent(s: Inst, w: Pid)
    requires Good(s) && w in s.procs && s.procs[w].Worker? && s.procs[w].wpc.Replying?
    ensures SenderOk(s.procs, s.procs[w].wpc.call)
  {
    assert ReplyOk(s.log.served, w, s.procs[w]);
    ServedWasSent(s, Answer(s.procs[w].wpc.call, s.procs[w].wpc.reply));
  }

  /** A caller that has left does not come back. */
  lemma GoneForGood(s: Inst, step: Step, c: Call)
    requires SenderOk(s.procs, c) && !Expected(s, c)
    ensures !Expected(Next(s, step), c)
  {
    var a := c.caller;
    if !s.crashed && step.Ask? && step.p in s.procs && s.procs[step.p].Caller? {
      CallerShared(s, step.p, s.procs[step.p], step.act);
    } else if !s.crashed && step.Work? && step.p in s.procs && s.procs[step.p].Worker? {
      WorkerShared(s, s.procs[step.p], step.job);
    }
  }

  lemma ReplierStays(s: Inst, step: Step, w: Pid)
    requires w in s.procs && Stuck(s, s.procs[w])
    ensures w in Next(s, step).procs && Next(s, step).procs[w] == s.procs[w]
  {
    if !s.crashed && step.Ask? && step.p in s.procs && s.procs[step.p].Caller? {
      CallerShared(s, step.p, s.procs[step.p], step.act);
    } else if !s.crashed && step.Work? && step.p in s.procs && s.procs[step.p].Worker? {
      WorkerShared(s, s.procs[step.p], step.job);
    }
  }

  lemma ServersStep(s: Inst, step: Step)
    requires Positions(s) && Good(s)
    ensures Servers(Next(s, step)) <= Servers(s)
  {
    SlotsStep(s, step);
    forall w | w in StuckProcs(s)
      ensures w in StuckProcs(Next(s, step))
    {
      RepliedWasSent(s, w);
      GoneForGood(s, step, s.procs[w].wpc.call);
      ReplierStays(s, step, w);
    }
    SubsetSize(StuckProcs(s), StuckProcs(Next(s, step)));
  }

  lemma OverlapNeedsServers(s: Inst, step: Step)
    requires Overlap(s, step)
    ensures Servers(s) >= 2
  {
    var a :| a in s.procs && InHand(s.procs[a]);
    var free := Candidates(s) - StuckProcs(s);
    SubsetSize({a, step.p}, free);
    assert Candidates(s) == free + StuckProcs(s);
  }

  // ---- a jam

  ghost predicate Jammed(s: Inst) {
    |s.log.queue| >= QUEUE_MAX && forall a :: a in s.procs ==> !Drains(s, s.procs[a])
  }

  /** Nobody can send. */
  predicate Shut(s: Inst) {
    s.closed || |s.log.queue| >= QUEUE_MAX
  }

  lemma NoNewWait(s: Inst, step: Step, c: Call)
    requires Shut(s) && Expected(Next(s, step), c)
    ensures Expected(s, c)
  {
    if !s.crashed && step.Ask? && step.p in s.procs && s.procs[step.p].Caller? {
      CallerShared(s, step.p, s.procs[step.p], step.act);
    } else if !s.crashed && step.Work? && step.p in s.procs && s.procs[step.p].Worker? {
      WorkerShared(s, s.procs[step.p], step.job);
    }
  }

  lemma CallerJams(s: Inst, p: Pid, act: CallerAct)
    requires |s.log.queue| >= QUEUE_MAX && p in s.procs && s.procs[p].Caller? && !Drains(s, s.procs[p])
    requires ProcOk(s, s.procs[p])
    ensures var s' := NextCaller(s, p, act);
            s'.log == s.log && !Drains(s', s'.procs[p]) && s'.procs == s.procs[p := s'.procs[p]]
  {
    CallerShared(s, p, s.procs[p], act);
    CallerLog(s, p, s.procs[p], act);
  }

  lemma WorkerJams(s: Inst, w: Pid, job: WorkerAct)
    requires |s.log.queue| >= QUEUE_MAX && w in s.procs && s.procs[w].Worker? && !Drains(s, s.procs[w])
    ensures var s' := NextWorker(s, w, job);
            && s'.log.queue == s.log.queue && !Takes(s, s.procs[w], job) && s'.procs == s.procs[w := s'.procs[w]]
            && s'.procs[w].Worker? && !s'.procs[w].wpc.Selecting? && !s'.procs[w].wpc.Rearming?
            && (s'.procs[w].wpc.Invoking? || s'.procs[w].wpc.Replying? ==> !Expected(s, s'.procs[w].wpc.call))
  {
    WorkerShared(s, s.procs[w], job);
    WorkerLog(s, s.procs[w], job);
  }

  /** Nobody takes anything any more. */
  lemma JamStays(s: Inst, step: Step)
    requires Jammed(s) && Positions(s)
    ensures Jammed(Next(s, step)) && !Overlap(s, step)
  {
    var s' := Next(s, step);
    if !s.crashed && step.Ask? && step.p in s.procs && s.procs[step.p].Caller? {
      assert ProcOk(s, s.procs[step.p]);
      CallerJams(s, step.p, step.act);
    } else if !s.crashed && step.Work? && step.p in s.procs && s.procs[step.p].Worker? {
      WorkerJams(s, step.p, step.job);
    }
    forall a | a in s'.procs
      ensures !Drains(s', s'.procs[a])
    {
      var p := s'.procs[a];
      if p.Worker? && (p.wpc.Invoking? || p.wpc.Replying?) && Expected(s', p.wpc.call) {
        NoNewWait(s, step, p.wpc.call);
      }
    }
  }

  // ---- what every step keeps

  /** No two workers reply to the same call. */
  ghost predicate OneReplier(s: Inst) {
    forall a, b :: a in s.procs && b in s.procs && a != b && AtReply(s.procs[a]) && AtReply(s.procs[b]) ==>
      s.procs[a].wpc.call != s.procs[b].wpc.call
  }

  predicate AtReply(p: Proc) {
    p.Worker? && p.wpc.Replying?
  }

  lemma NewReplier(s: Inst, step: Step, a: Pid)
    requires a in Next(s, step).procs && AtReply(Next(s, step).procs[a])
    ensures a in s.procs
    ensures Next(s, step).procs[a] == s.procs[a] ||
            (InHand(s.procs[a]) && s.procs[a].wpc.call == Next(s, step).procs[a].wpc.call && step.Work? && step.p == a)
  {
    if !s.crashed && step.Ask? && step.p in s.procs && s.procs[step.p].Caller? {
      CallerShared(s, step.p, s.procs[step.p], step.act);
    } else if !s.crashed && step.Work? && step.p in s.procs && s.procs[step.p].Worker? {
      WorkerShared(s, s.procs[step.p], step.job);
    }
  }

  lemma HandIsUnreplied(s: Inst, a: Pid, b: Pid)
    requires Good(s) && a in s.procs && b in s.procs && InHand(s.procs[a]) && AtReply(s.procs[b])
    ensures s.procs[a].wpc.call != s.procs[b].wpc.call
  {
    assert HandOk(s.log, s.procs[a]) && ReplyOk(s.log.served, b, s.procs[b]);
    var k :| 0 <= k < |s.log.served| && s.log.served[k] == Answer(s.procs[b].wpc.call, s.procs[b].wpc.reply);
    assert Calls(s.log.served)[k] == s.procs[b].wpc.call;
  }

  lemma OneReplierKept(s: Inst, step: Step)
    requires Good(s) && OneReplier(s)
    ensures OneReplier(Next(s, step))
  {
    var s' := Next(s, step);
    forall a, b | a in s'.procs && b in s'.procs && a != b && AtReply(s'.procs[a]) && AtReply(s'.procs[b])
      ensures s'.procs[a].wpc.call != s'.procs[b].wpc.call
    {
      NewReplier(s, step, a);
      NewReplier(s, step, b);
      if InHand(s.procs[a]) && AtReply(s.procs[b]) {
        HandIsUnreplied(s, a, b);
      } else if InHand(s.procs[b]) && AtReply(s.procs[a]) {
        HandIsUnreplied(s, b, a);
      }
    }
  }

  ghost predicate Sound(s: Inst) {
    Positions(s) && Good(s) && OneReplier(s) && Slots(s) <= 2
  }

  lemma SoundStep(s: Inst, step: Step)
    requires Sound(s)
    ensures Sound(Next(s, step)) && Servers(Next(s, step)) <= Servers(s)
  {
    PositionsKept(s, step);
    GoodKept(s, step);
    OneReplierKept(s, step);
    SlotsStep(s, step);
    ServersStep(s, step);
  }

  lemma {:induction false} RunSound(s: Inst, later: seq<Step>)
    requires Sound(s)
    ensures Sound(Run(s, later)) && Servers(Run(s, later)) <= Servers(s)
  {
    if later == [] {
    } else {
      RunSound(s, later[..|later| - 1]);
      SoundStep(Run(s, later[..|later| - 1]), later[|later| - 1]);
    }
  }

  lemma ReachedSound(life: int, gap: int, steps: seq<Step>)
    ensures Sound(Run(Fresh(life, gap), steps))
  {
    RunIsGood(life, gap, []);
    RunPlaced(life, gap, []);
    TwoSlots(life, gap, []);
    RunSound(Fresh(life, gap), steps);
  }

  // ---- what keeps the order

  /** With fewer than two free slots, or in a jam, the order is kept for good. */
  lemma {:induction false} OrderStays(s: Inst, later: seq<Step>)
    requires Sound(s) && InOrder(s) && (Servers(s) <= 1 || Jammed(s))
    ensures InOrder(Run(s, later)) && (Servers(Run(s, later)) <= 1 || Jammed(Run(s, later)))
  {
    if later == [] {
    } else {
      var before, step := later[..|later| - 1], later[|later| - 1];
      var e := Run(s, before);
      OrderStays(s, before);
      RunSound(s, before);
      SoundStep(e, step);
      if Overlap(e, step) {
        OverlapNeedsServers(e, step);
      }
      if Jammed(e) {
        JamStays(e, step);
      }
      OrderStep(e, step);
    }
  }

  // ---- one goroutine moves, the other candidates stay

  /** The candidates but a are where they were, and none of them has become stuck. */
  ghost predicate Kept(s: Inst, e: Inst, a: Pid) {
    forall b :: b in s.procs && b != a && Candidate(s.procs[b]) ==>
      b in e.procs && e.procs[b] == s.procs[b] && (Stuck(e, s.procs[b]) ==> Stuck(s, s.procs[b]))
  }

  lemma KeptBy(s: Inst, e: Inst, a: Pid)
    requires forall b :: b in s.procs && b != a ==> b in e.procs && e.procs[b] == s.procs[b]
    requires a in s.procs && Expects(s.procs[a]) ==> a in e.procs && Expects(e.procs[a])
    ensures Kept(s, e, a)
  {
  }

  lemma KeptTrans(s: Inst, m: Inst, e: Inst, a: Pid, a': Pid)
    requires Kept(s, m, a) && Kept(m, e, a') && (a' == a || a' !in s.procs)
    ensures Kept(s, e, a)
  {
  }

  /** Two workers reply to different callers. */
  lemma RepliesApart(s: Inst, a: Pid, b: Pid)
    requires Sound(s) && a in s.procs && b in s.procs && a != b && AtReply(s.procs[a]) && AtReply(s.procs[b])
    ensures s.procs[a].wpc.call.caller != s.procs[b].wpc.call.caller
  {
    var j := SentAt(s, a);
    var k := SentAt(s, b);
    assert s.log.enqueued[j].caller != s.log.enqueued[k].caller || j == k;
  }

  lemma SentAt(s: Inst, w: Pid) returns (k: nat)
    requires Good(s) && w in s.procs && AtReply(s.procs[w])
    ensures k < |s.log.enqueued| && s.log.enqueued[k] == s.procs[w].wpc.call
  {
    var p := s.procs[w];
    assert ReplyOk(s.log.served, w, p);
    var j :| 0 <= j < |s.log.served| && s.log.served[j] == Answer(p.wpc.call, p.wpc.reply);
    assert Calls(s.log.served)[j] == p.wpc.call;
    assert p.wpc.call in s.log.taken;
    k :| 0 <= k < |s.log.taken| && s.log.taken[k] == p.wpc.call;
  }

  // ---- taking a request from the queue

  lemma Receives(s: Inst, w: Pid)
    requires !s.crashed && w in s.procs && Takes(s, s.procs[w], Receive)
    ensures Next(s, Work(w, Receive)) ==
            To(s.(log := Took(s.log)), w, Worker(s.procs[w].idle, Invoking(s.log.queue[0])))
  {
  }

  lemma Rearms(s: Inst, w: Pid)
    requires !s.crashed && w in s.procs && s.procs[w] == Worker(false, Rearming)
    ensures Next(s, Work(w, Rearm)) == To(s, w, Worker(false, Selecting))
  {
  }

  lemma RespondsTo(s: Inst, w: Pid)
    requires !s.crashed && w in s.procs && Responds(s, s.procs[w], Respond)
    ensures var k := s.procs[w];
            var c := s.procs[k.wpc.call.caller];
            Next(s, Work(w, Respond)) ==
            To(To(s, k.wpc.call.caller, Caller(c.req, c.elected, Answered(k.wpc.reply))), w, Worker(k.idle, Rearming))
  {
  }

  lemma StartsWorker(s: Inst, p: Pid, w: Pid)
    requires !s.crashed && p in s.procs && s.procs[p].Caller? && s.procs[p].pc.Spawning? && w !in s.procs
    ensures var c := s.procs[p];
            Next(s, Ask(p, Spawn(w))) == To(To(s, w, Worker(false, Selecting)), p, Caller(c.req, c.elected, Awaiting))
  {
  }

  /** Only goroutines and the history have changed. */
  predicate SameRest(s: Inst, e: Inst) {
    e == s.(procs := e.procs, log := e.log)
  }

  /** A goroutine that drains the queue is not held up by its caller. */
  predicate Unhindered(s: Inst, p: Proc) {
    Drains(s, p) && !InHand(p) && (AtReply(p) ==> Waits(s, p.wpc.call.caller))
  }

  function Steps(p: Proc): nat {
    if AtReply(p) then 2 else if p.Worker? && p.wpc.Rearming? then 1 else if p.Caller? then 1 else 0
  }

  lemma KeptByReply(s: Inst, a: Pid)
    requires Sound(s) && !s.crashed && a in s.procs && Responds(s, s.procs[a], Respond)
    ensures Kept(s, Next(s, Work(a, Respond)), a)
  {
    var e := Next(s, Work(a, Respond));
    RespondsTo(s, a);
    forall b | b in s.procs && b != a && Candidate(s.procs[b])
      ensures b in e.procs && e.procs[b] == s.procs[b] && (Stuck(e, s.procs[b]) ==> Stuck(s, s.procs[b]))
    {
      if AtReply(s.procs[b]) {
        RepliesApart(s, a, b);
      }
    }
  }

  /** One operation brings it nearer to the queue. */
  lemma DrainStep(s: Inst, a: Pid) returns (step: Step, a': Pid)
    requires Sound(s) && !s.crashed && a in s.procs && Unhindered(s, s.procs[a]) && Steps(s.procs[a]) > 0
    ensures var e := Next(s, step);
            && SameRest(s, e) && e.log == s.log && s.procs.Keys <= e.procs.Keys
            && Kept(s, e, a) && (a' == a || a' !in s.procs)
            && a' in e.procs && Unhindered(e, e.procs[a']) && Steps(e.procs[a']) < Steps(s.procs[a])
  {
    var p := s.procs[a];
    assert ProcOk(s, p);
    if p.Caller? {
      a' := Bound(s.procs.Keys);
      step := Ask(a, Spawn(a'));
      StartsWorker(s, a, a');
      KeptBy(s, Next(s, step), a);
    } else if p.wpc.Rearming? {
      step, a' := Work(a, Rearm), a;
      Rearms(s, a);
      KeptBy(s, Next(s, step), a);
    } else {
      step, a' := Work(a, Respond), a;
      RespondsTo(s, a);
      KeptByReply(s, a);
    }
  }

  /** It takes the next request. */
  lemma {:induction false} TakeNext(s: Inst, a: Pid) returns (later: seq<Step>, x: Pid)
    requires Sound(s) && !s.crashed && s.log.queue != [] && a in s.procs && Unhindered(s, s.procs[a])
    ensures var e := Run(s, later);
            && x in e.procs && InHand(e.procs[x]) && (x == a || x !in s.procs)
            && SameRest(s, e) && e.log == Took(s.log) && Kept(s, e, a)
    decreases Steps(s.procs[a])
  {
    if Steps(s.procs[a]) == 0 {
      later, x := [Work(a, Receive)], a;
      Receives(s, a);
      RunOne(s, Work(a, Receive));
      KeptBy(s, Next(s, Work(a, Receive)), a);
    } else {
      var step, a' := DrainStep(s, a);
      SoundStep(s, step);
      var rest;
      rest, x := TakeNext(Next(s, step), a');
      later := [step] + rest;
      RunCons(s, step, rest);
      KeptTrans(s, Next(s, step), Run(s, later), a, a');
    }
  }

  // ---- sending a request

  predicate Ready(s: Inst) {
    !s.crashed && s.registered && !s.closed && s.isOpen && s.clock.armed
  }

  /** Between its swap and its send, and not after a failed reset. */
  predicate OnTheWay(p: Proc) {
    p.Caller? && Distance(p.pc) > 0 && !Failed(p)
  }

  /** A caller before its send makes its next move. */
  lemma NearerToSend(s: Inst, p: Pid)
    requires Ready(s) && p in s.procs && OnTheWay(s.procs[p]) && !s.procs[p].pc.Sending?
    ensures var c, e := s.procs[p], Next(s, Ask(p, NextAct(s.procs[p].pc)));
            && Ready(e) && e.log == s.log && p in e.procs && e.procs == s.procs[p := e.procs[p]]
            && OnTheWay(e.procs[p]) && e.procs[p].req == c.req && e.procs[p].elected == c.elected
            && Distance(e.procs[p].pc) < Distance(c.pc)
  {
    CallerShared(s, p, s.procs[p], NextAct(s.procs[p].pc));
  }

  predicate SentBy(s: Inst, e: Inst, p: Pid, c: Proc)
    requires c.Caller?
  {
    && Ready(e) && e.log == Sent(s.log, Call(p, c.req))
    && e.procs == s.procs[p := Caller(c.req, c.elected, if c.elected then Spawning else Awaiting)]
  }

  lemma Sends(s: Inst, p: Pid)
    requires Ready(s) && p in s.procs && CanSend(s, s.procs[p])
    ensures SentBy(s, Next(s, Ask(p, Send)), p, s.procs[p])
  {
  }

  lemma {:induction false} GoSend(s: Inst, p: Pid) returns (later: seq<Step>)
    requires Ready(s) && |s.log.queue| < QUEUE_MAX && p in s.procs && OnTheWay(s.procs[p])
    ensures SentBy(s, Run(s, later), p, s.procs[p])
    decreases Distance(s.procs[p].pc)
  {
    if s.procs[p].pc.Sending? {
      later := [Ask(p, Send)];
      Sends(s, p);
      RunOne(s, Ask(p, Send));
    } else {
      var step := Ask(p, NextAct(s.procs[p].pc));
      NearerToSend(s, p);
      var rest := GoSend(Next(s, step), p);
      later := [step] + rest;
      RunCons(s, step, rest);
    }
  }

  /** A new caller loses the election and sends. */
  lemma SendOne(s: Inst) returns (later: seq<Step>, p: Pid)
    requires Ready(s) && |s.log.queue| < QUEUE_MAX
    ensures var e := Run(s, later);
            p !in s.procs && Ready(e) && e.log == Sent(s.log, Call(p, "")) && e.procs == s.procs[p := Caller("", false, Awaiting)]
  {
    p := Bound(s.procs.Keys);
    ArrivalRun(s, p);
    assert s.(isOpen := true) == s;
    var m := Arrived(s, p);
    var rest := GoSend(m, p);
    RunAppend(s, Arrival(p), rest);
    later := Arrival(p) + rest;
    assert m.procs[p := Caller("", false, Awaiting)] == s.procs[p := Caller("", false, Awaiting)];
  }

  // ---- the capacity of the queue

  /** A send goes through below 100 queued requests and waits at 100. */
  lemma SendsBelowHundred(s: Inst, p: Pid)
    requires !s.crashed && !s.closed && p in s.procs && s.procs[p].Caller? && s.procs[p].pc.Sending?
    ensures var e, c := Next(s, Ask(p, Send)), s.procs[p];
            if |s.log.queue| < 100 then
              e.log.queue == s.log.queue + [Call(p, c.req)] &&
              e.procs == s.procs[p := Caller(c.req, c.elected, if c.elected then Spawning else Awaiting)]
            else e == s
  {
    if |s.log.queue| >= 100 {
      assert s.procs[p := s.procs[p]] == s.procs;
    }
  }

  lemma {:induction false} FillQueue(s: Inst, n: nat) returns (later: seq<Step>)
    requires Ready(s) && |s.log.queue| <= n <= 100
    ensures Ready(Run(s, later)) && |Run(s, later).log.queue| == n
    decreases n
  {
    if |s.log.queue| == n {
      later := [];
    } else {
      var before := FillQueue(s, n - 1);
      var send, p := SendOne(Run(s, before));
      RunAppend(s, before, send);
      later := before + send;
    }
  }

  /** A run with 100 requests queued. */
  lemma HundredQueued(life: int, gap: int) returns (steps: seq<Step>)
    ensures var s := Run(Fresh(life, gap), steps); !s.crashed && !s.closed && |s.log.queue| == 100
  {
    var serving := Enter(0, "") + Serve(0, 1);
    ServeRun(Fresh(life, gap), 0, 1, "");
    var fill := FillQueue(Served(Fresh(life, gap), 0, 1, ""), 100);
    RunAppend(Fresh(life, gap), serving, fill);
    steps := serving + fill;
  }

  // ---- a caller that leaves

  /** A caller that gives up while its reply is on the way holds the worker up for good: in
      every continuation the worker stays at that reply. */
  lemma {:induction false} LeavingHoldsUp(s: Inst, later: seq<Step>, w: Pid)
    requires Good(s) && !s.crashed && w in s.procs && AtReply(s.procs[w]) && Waits(s, s.procs[w].wpc.call.caller)
    ensures var m := Next(s, Ask(s.procs[w].wpc.call.caller, GiveUp));
            var e := Run(m, later);
            w in e.procs && e.procs[w] == s.procs[w] && Stuck(e, e.procs[w]) && Good(e)
  {
    var c := s.procs[w].wpc.call.caller;
    var m := Next(s, Ask(c, GiveUp));
    if later == [] {
      GoodKept(s, Ask(c, GiveUp));
      assert m.procs == s.procs[c := Caller(s.procs[c].req, s.procs[c].elected, Gone)];
    } else {
      var before, step := later[..|later| - 1], later[|later| - 1];
      LeavingHoldsUp(s, before, w);
      var e := Run(m, before);
      GoodKept(e, step);
      RepliedWasSent(e, w);
      GoneForGood(e, step, e.procs[w].wpc.call);
      ReplierStays(e, step, w);
    }
  }

  // ---- every candidate that is not stuck can take a request

  /** The state after a has got a request in hand as x. */
  ghost predicate Grabbed(s: Inst, e: Inst, a: Pid, x: Pid) {
    && Ready(e) && |e.log.queue| < QUEUE_MAX && Kept(s, e, a)
    && x in e.procs && InHand(e.procs[x]) && (x == a || x !in s.procs)
  }

  lemma GrabFromQueue(s: Inst, a: Pid) returns (later: seq<Step>, x: Pid)
    requires Sound(s) && Ready(s) && s.log.queue != [] && a in s.procs && Unhindered(s, s.procs[a])
    ensures Grabbed(s, Run(s, later), a, x)
  {
    later, x := TakeNext(s, a);
    assert |s.log.queue| <= QUEUE_MAX;
  }

  /** One that drains, with the queue not full: if it is empty, somebody sends first. */
  lemma GrabNext(s: Inst, a: Pid) returns (later: seq<Step>, x: Pid)
    requires Sound(s) && Ready(s) && |s.log.queue| < QUEUE_MAX && a in s.procs && Unhindered(s, s.procs[a])
    ensures Grabbed(s, Run(s, later), a, x)
  {
    if s.log.queue != [] {
      later, x := GrabFromQueue(s, a);
    } else {
      var send, p := SendOne(s);
      var m := Run(s, send);
      RunSound(s, send);
      KeptBy(s, m, a);
      var rest;
      rest, x := GrabFromQueue(m, a);
      RunAppend(s, send, rest);
      later := send + rest;
      KeptTrans(s, m, Run(m, rest), a, a);
    }
  }

  /** An elected caller before its send. */
  lemma GrabOwn(s: Inst, a: Pid) returns (later: seq<Step>, x: Pid)
    requires Sound(s) && Ready(s) && |s.log.queue| < QUEUE_MAX
    requires a in s.procs && OnTheWay(s.procs[a]) && s.procs[a].elected
    ensures Grabbed(s, Run(s, later), a, x)
  {
    var send := GoSend(s, a);
    var m := Run(s, send);
    RunSound(s, send);
    KeptBy(s, m, a);
    var rest;
    rest, x := GrabFromQueue(m, a);
    RunAppend(s, send, rest);
    later := send + rest;
    KeptTrans(s, m, Run(m, rest), a, a);
  }

  lemma ClearsFlag(s: Inst, w: Pid)
    requires !s.crashed && w in s.procs && s.procs[w].Worker? && s.procs[w].wpc.Closing?
    ensures Next(s, Work(w, ClearOpened)) == To(s.(isOpen := false), w, Worker(s.procs[w].idle, Exited))
  {
  }

  /** A worker that leaves makes way for a new elected caller. */
  lemma MakeWay(s: Inst, a: Pid) returns (later: seq<Step>, p: Pid)
    requires Ready(s) && a in s.procs && s.procs[a].Worker? && s.procs[a].wpc.Closing?
    ensures var e := Run(s, later);
            && Ready(e) && e.log == s.log && Kept(s, e, a) && s.procs.Keys <= e.procs.Keys
            && p !in s.procs && p in e.procs && OnTheWay(e.procs[p]) && e.procs[p].elected
  {
    var step := Work(a, ClearOpened);
    var m := Next(s, step);
    ClearsFlag(s, a);
    p := Bound(m.procs.Keys);
    ArrivalRun(m, p);
    KeptBy(s, Arrived(m, p), a);
    RunCons(s, step, Arrival(p));
    later := [step] + Arrival(p);
  }

  lemma GrabInstead(s: Inst, a: Pid) returns (later: seq<Step>, x: Pid)
    requires Sound(s) && Ready(s) && |s.log.queue| < QUEUE_MAX
    requires a in s.procs && s.procs[a].Worker? && s.procs[a].wpc.Closing?
    ensures Grabbed(s, Run(s, later), a, x)
  {
    var way, p := MakeWay(s, a);
    var m := Run(s, way);
    RunSound(s, way);
    var rest;
    rest, x := GrabOwn(m, p);
    RunAppend(s, way, rest);
    later := way + rest;
    KeptTrans(s, m, Run(m, rest), a, p);
  }

  /** A candidate that is not stuck, and whose caller does not have to start a worker first. */
  predicate Able(s: Inst, p: Proc) {
    Candidate(p) && !Stuck(s, p) && (AtReply(p) ==> Waits(s, p.wpc.call.caller))
  }

  lemma Grab(s: Inst, a: Pid) returns (later: seq<Step>, x: Pid)
    requires Sound(s) && Ready(s) && |s.log.queue| < QUEUE_MAX && a in s.procs && Able(s, s.procs[a])
    ensures Grabbed(s, Run(s, later), a, x)
  {
    var p := s.procs[a];
    if InHand(p) {
      later, x := [], a;
    } else if Drains(s, p) {
      later, x := GrabNext(s, a);
    } else if p.Caller? {
      later, x := GrabOwn(s, a);
    } else {
      later, x := GrabInstead(s, a);
    }
  }

  lemma Invokes(s: Inst, w: Pid)
    requires !s.crashed && w in s.procs && InHand(s.procs[w])
    ensures var k := s.procs[w];
            Next(s, Work(w, Invoke(""))) ==
            To(s.(log := s.log.(served := s.log.served + [Answer(k.wpc.call, "")])), w, Worker(k.idle, Replying(k.wpc.call, "")))
  {
  }

  /** One that drains makes room in a full queue. */
  lemma GrabFromFull(s: Inst, a: Pid) returns (later: seq<Step>, x: Pid)
    requires Sound(s) && Ready(s) && |s.log.queue| >= QUEUE_MAX && a in s.procs && Drains(s, s.procs[a])
    requires s.procs[a].Worker? && (InHand(s.procs[a]) || AtReply(s.procs[a])) ==> Waits(s, s.procs[a].wpc.call.caller)
    ensures Grabbed(s, Run(s, later), a, x)
  {
    if InHand(s.procs[a]) {
      var step := Work(a, Invoke(""));
      Invokes(s, a);
      SoundStep(s, step);
      var m := Next(s, step);
      KeptBy(s, m, a);
      var rest;
      rest, x := GrabFromQueue(m, a);
      RunCons(s, step, rest);
      later := [step] + rest;
      KeptTrans(s, m, Run(m, rest), a, a);
    } else {
      later, x := GrabFromQueue(s, a);
    }
  }

  // ---- two at once

  /** The candidates that are not stuck. */
  ghost function Free(s: Inst): set<Pid> {
    Candidates(s) - StuckProcs(s)
  }

  lemma FreeSize(s: Inst)
    ensures |Free(s)| == |Candidates(s)| - |StuckProcs(s)| && |Free(s)| <= Servers(s)
  {
    assert Candidates(s) == Free(s) + StuckProcs(s);
  }

  /** Beside another free candidate, a worker replies to a caller that waits already: one
      that has still to start its worker would be a third. */
  lemma CallerWaits(s: Inst, x: Pid, y: Pid)
    requires Sound(s) && x in Free(s) && y in Free(s) && x != y && !(s.procs[x].Caller? && s.procs[x].pc.Spawning?)
    requires s.procs[y].Worker? && (AtReply(s.procs[y]) || InHand(s.procs[y])) && Expected(s, s.procs[y].wpc.call)
    ensures Waits(s, s.procs[y].wpc.call.caller)
  {
    var c := s.procs[y].wpc.call.caller;
    assert ProcOk(s, s.procs[c]);
    if s.procs[c].pc.Spawning? {
      assert c in Free(s);
      NoThird(s, x, y, c);
    }
  }

  lemma NoThird(s: Inst, x: Pid, y: Pid, z: Pid)
    requires Slots(s) <= 2 && x in Free(s) && y in Free(s) && z in Free(s) && x != y
    ensures z == x || z == y
  {
    FreeSize(s);
    SubsetSize({x, y}, Free(s));
  }

  /** Everything stays as new callers come. */
  lemma JoinedSame(s: Inst, e: Inst)
    requires Joined(s, e)
    ensures StuckProcs(e) == StuckProcs(s) && (HasRoom(s) ==> HasRoom(e))
  {
    forall a | a in s.procs
      ensures Stuck(e, e.procs[a]) <==> Stuck(s, s.procs[a])
    {
    }
    if a :| a in s.procs && Drains(s, s.procs[a]) {
      assert a in e.procs && Drains(e, e.procs[a]);
    }
  }

  /** Which of two free candidates goes first: one that has still to start its worker, else one
      that drains. */
  lemma PickFirst(s: Inst) returns (a: Pid, b: Pid)
    requires HasRoom(s) && |Free(s)| == 2 && Positions(s)
    ensures a in Free(s) && b in Free(s) && a != b
    ensures |s.log.queue| < QUEUE_MAX || Drains(s, s.procs[a])
    ensures (s.procs[a].Caller? && s.procs[a].pc.Spawning?) || !(s.procs[b].Caller? && s.procs[b].pc.Spawning?)
  {
    a, b := TwoElements(Free(s));
    SubsetSize({a, b}, Free(s));
    if |s.log.queue| >= QUEUE_MAX {
      var d :| d in s.procs && Drains(s, s.procs[d]);
      assert d in Free(s);
      if d == b {
        a, b := b, a;
      }
    }
    if s.procs[b].Caller? && s.procs[b].pc.Spawning? {
      assert ProcOk(s, s.procs[b]);
      a, b := b, a;
    }
  }

  lemma GrabFirst(s: Inst, a: Pid, b: Pid) returns (later: seq<Step>, x: Pid)
    requires Sound(s) && Ready(s) && a in Free(s) && b in Free(s) && a != b
    requires |s.log.queue| < QUEUE_MAX || Drains(s, s.procs[a])
    requires (s.procs[a].Caller? && s.procs[a].pc.Spawning?) || !(s.procs[b].Caller? && s.procs[b].pc.Spawning?)
    ensures Grabbed(s, Run(s, later), a, x)
  {
    if s.procs[a].Worker? && (AtReply(s.procs[a]) || InHand(s.procs[a])) && Expected(s, s.procs[a].wpc.call) {
      CallerWaits(s, b, a);
    }
    if |s.log.queue| < QUEUE_MAX {
      later, x := Grab(s, a);
    } else {
      later, x := GrabFromFull(s, a);
    }
  }

  /** Two free candidates both get a request in hand. */
  lemma GrabTwo(s: Inst) returns (later: seq<Step>)
    requires Sound(s) && Ready(s) && HasRoom(s) && |Free(s)| == 2
    ensures !OneInHand(Run(s, later).procs) && !Run(s, later).crashed
  {
    var a, b := PickFirst(s);
    var first, x := GrabFirst(s, a, b);
    var m := Run(s, first);
    RunSound(s, first);
    assert b in Free(m) && b != x;
    var second := GrabBeside(m, x, b);
    RunAppend(s, first, second);
    later := first + second;
  }

  lemma GrabBeside(s: Inst, x: Pid, b: Pid) returns (later: seq<Step>)
    requires Sound(s) && Ready(s) && |s.log.queue| < QUEUE_MAX && x in s.procs && InHand(s.procs[x])
    requires b in Free(s) && b != x
    ensures !OneInHand(Run(s, later).procs) && !Run(s, later).crashed
  {
    if AtReply(s.procs[b]) {
      CallerWaits(s, x, b);
    }
    var y;
    later, y := Grab(s, b);
    assert InHand(Run(s, later).procs[x]) && InHand(Run(s, later).procs[y]);
  }

  /** As long as the queue is open. */
  lemma Overtake(s: Inst) returns (later: seq<Step>)
    requires Sound(s) && !s.crashed && !s.closed && Servers(s) == 2 && HasRoom(s)
    ensures !OneInHand(Run(s, later).procs) && !Run(s, later).crashed
  {
    var fill := FillSlots(s);
    var m := Run(s, fill);
    var arm := ArmTimer(m);
    var n := Run(m, arm);
    JoinedSame(s, m);
    JoinedSame(m, n);
    RunSound(s, fill);
    RunSound(m, arm);
    FreeSize(n);
    var grab := GrabTwo(n);
    RunAppend(m, arm, grab);
    RunAppend(s, fill, arm + grab);
    later := fill + (arm + grab);
  }

  // ---- after the queue has been closed

  /** Those that have a request in hand or can take one from the queue. */
  ghost function Takers(s: Inst): set<Pid> {
    set a | a in s.procs && (InHand(s.procs[a]) || Drains(s, s.procs[a]))
  }

  /** Two of them, and two requests between them. */
  ghost predicate TwoLeft(s: Inst) {
    |Takers(s)| >= 2 && |s.log.queue| + |InHands(s)| >= 2
  }

  /** One free candidate has a request in hand, and another takes one. */
  lemma TakeBeside(s: Inst, x: Pid, y: Pid) returns (later: seq<Step>)
    requires Sound(s) && !s.crashed && s.log.queue != [] && x in s.procs && InHand(s.procs[x])
    requires y in s.procs && x != y && Drains(s, s.procs[y])
    ensures !OneInHand(Run(s, later).procs) && !Run(s, later).crashed
  {
    if InHand(s.procs[y]) {
      later := [];
    } else {
      if AtReply(s.procs[y]) {
        CallerWaits(s, x, y);
      }
      var z;
      later, z := TakeNext(s, y);
      assert InHand(Run(s, later).procs[x]) && InHand(Run(s, later).procs[z]);
    }
  }

  lemma TakeBoth(s: Inst, x: Pid, y: Pid) returns (later: seq<Step>)
    requires Sound(s) && !s.crashed && |s.log.queue| >= 2 && x in s.procs && y in s.procs && x != y
    requires Drains(s, s.procs[x]) && Drains(s, s.procs[y]) && !InHand(s.procs[x]) && !InHand(s.procs[y])
    requires s.procs[x].Caller? || s.procs[y].Worker?
    ensures !OneInHand(Run(s, later).procs) && !Run(s, later).crashed
  {
    if AtReply(s.procs[x]) {
      CallerWaits(s, y, x);
    }
    var first, z := TakeNext(s, x);
    var m := Run(s, first);
    RunSound(s, first);
    assert y in m.procs && m.procs[y] == s.procs[y] && !Stuck(m, m.procs[y]);
    var second := TakeBeside(m, z, y);
    RunAppend(s, first, second);
    later := first + second;
  }

  lemma OvertakeClosed(s: Inst) returns (later: seq<Step>)
    requires Sound(s) && !s.crashed && TwoLeft(s)
    ensures !OneInHand(Run(s, later).procs) && !Run(s, later).crashed
  {
    var x, y := TwoElements(Takers(s));
    SubsetSize({x, y}, Takers(s));
    if InHand(s.procs[x]) && InHand(s.procs[y]) {
      later := [];
    } else if s.log.queue == [] {
      var a, b := TwoElements(InHands(s));
      later := [];
    } else if InHand(s.procs[x]) {
      later := TakeBeside(s, x, y);
    } else if InHand(s.procs[y]) {
      later := TakeBeside(s, y, x);
    } else if h :| h in s.procs && InHand(s.procs[h]) {
      later := TakeBeside(s, h, x);
    } else {
      assert InHands(s) == {};
      if s.procs[x].Caller? || s.procs[y].Worker? {
        later := TakeBoth(s, x, y);
      } else {
        later := TakeBoth(s, y, x);
      }
    }
  }

  lemma CallerTakes(s: Inst, p: Pid, act: CallerAct)
    requires s.closed && p in s.procs && s.procs[p].Caller? && ProcOk(s, s.procs[p])
    ensures var s' := NextCaller(s, p, act);
            && s'.log == s.log && (Spawns(s, s.procs[p], act) ==> Drains(s, s.procs[p]) && !Drains(s', s'.procs[p]))
            && (Drains(s', s'.procs[p]) ==> Drains(s, s.procs[p]))
  {
    CallerShared(s, p, s.procs[p], act);
    CallerLog(s, p, s.procs[p], act);
  }

  lemma WorkerTakes(s: Inst, w: Pid, job: WorkerAct)
    requires w in s.procs && s.procs[w].Worker?
    ensures var k, k' := s.procs[w], NextWorker(s, w, job).procs[w];
            && k'.Worker? && (InHand(k') ==> k' == k || Takes(s, k, job))
            && (k'.wpc.Selecting? || k'.wpc.Rearming? ==> Drains(s, k))
            && (k'.wpc.Replying? ==> (InHand(k) || k.wpc.Replying?) && k'.wpc.call == k.wpc.call)
  {
    WorkerLog(s, s.procs[w], job);
  }

  /** A goroutine that has not moved is a taker only if it was one. */
  lemma SameTaker(s: Inst, step: Step, p: Proc)
    requires s.closed && (InHand(p) || Drains(Next(s, step), p))
    ensures InHand(p) || Drains(s, p)
  {
    if p.Worker? && p.wpc.Replying? {
      NoNewWait(s, step, p.wpc.call);
    }
  }

  lemma WorkerWasTaker(s: Inst, w: Pid, job: WorkerAct)
    requires s.closed && !s.crashed && w in s.procs && s.procs[w].Worker? && w in Takers(NextWorker(s, w, job))
    ensures w in Takers(s)
  {
    var k' := NextWorker(s, w, job).procs[w];
    WorkerTakes(s, w, job);
    if k'.wpc.Replying? {
      NoNewWait(s, Work(w, job), k'.wpc.call);
    }
  }

  /** Whoever is a taker after a step was one before, but for a worker just started. */
  lemma TakersBefore(s: Inst, step: Step, a: Pid)
    requires Positions(s) && s.closed && a in Takers(Next(s, step)) && !(a !in s.procs && step.Ask? && step.act.Spawn?)
    ensures a in Takers(s)
  {
    var s' := Next(s, step);
    if a in s.procs && s'.procs[a] == s.procs[a] {
      SameTaker(s, step, s.procs[a]);
    } else if !s.crashed && step.Ask? && step.p in s.procs && s.procs[step.p].Caller? {
      assert ProcOk(s, s.procs[step.p]);
      CallerShared(s, step.p, s.procs[step.p], step.act);
      CallerTakes(s, step.p, step.act);
    } else if !s.crashed && step.Work? && step.p in s.procs && s.procs[step.p].Worker? {
      WorkerShared(s, s.procs[step.p], step.job);
      if a == step.p {
        WorkerWasTaker(s, a, step.job);
      }
    }
  }

  lemma TakersFall(s: Inst, step: Step)
    requires Positions(s) && s.closed
    ensures |Takers(Next(s, step))| <= |Takers(s)|
  {
    var s' := Next(s, step);
    if s.crashed {
    } else if step.Ask? && step.p in s.procs && Spawns(s, s.procs[step.p], step.act) {
      assert ProcOk(s, s.procs[step.p]);
      CallerShared(s, step.p, s.procs[step.p], step.act);
      CallerTakes(s, step.p, step.act);
      forall a | a in Takers(s')
        ensures a in Takers(s) - {step.p} + {step.act.w}
      {
        if a != step.act.w {
          TakersBefore(s, step, a);
        }
      }
      Recount(Takers(s), Takers(s'), {step.p}, {step.act.w});
    } else {
      forall a | a in Takers(s')
        ensures a in Takers(s)
      {
        assert a in s.procs by {
          OnlySpawnAdds(s, step, a);
        }
        TakersBefore(s, step, a);
      }
      SubsetSize(Takers(s'), Takers(s));
    }
  }

  lemma OnlySpawnAdds(s: Inst, step: Step, a: Pid)
    requires a in Takers(Next(s, step)) && !(step.Ask? && step.p in s.procs && Spawns(s, s.procs[step.p], step.act))
    ensures a in s.procs
  {
    if !s.crashed && step.Ask? && step.p in s.procs && s.procs[step.p].Caller? {
      CallerShared(s, step.p, s.procs[step.p], step.act);
    } else if !s.crashed && step.Work? && step.p in s.procs && s.procs[step.p].Worker? {
      WorkerShared(s, s.procs[step.p], step.job);
    }
  }

  /** Requests only leave a closed queue. */
  lemma RequestsFall(s: Inst, step: Step)
    requires Positions(s) && s.closed
    ensures var s' := Next(s, step);
            |s'.log.queue| + |InHands(s')| <= |s.log.queue| + |InHands(s)|
  {
    var s' := Next(s, step);
    if !s.crashed && step.Ask? && step.p in s.procs && s.procs[step.p].Caller? {
      assert ProcOk(s, s.procs[step.p]);
      CallerShared(s, step.p, s.procs[step.p], step.act);
      CallerTakes(s, step.p, step.act);
      SubsetSize(InHands(s'), InHands(s));
    } else if !s.crashed && step.Work? && step.p in s.procs && s.procs[step.p].Worker? {
      RequestsByWorker(s, step.p, step.job);
    } else {
      SubsetSize(InHands(s'), InHands(s));
    }
  }

  lemma RequestsByWorker(s: Inst, w: Pid, job: WorkerAct)
    requires w in s.procs && s.procs[w].Worker?
    ensures var s' := NextWorker(s, w, job);
            |s'.log.queue| + |InHands(s')| <= |s.log.queue| + |InHands(s)|
  {
    var s' := NextWorker(s, w, job);
    WorkerShared(s, s.procs[w], job);
    WorkerLog(s, s.procs[w], job);
    WorkerTakes(s, w, job);
    if Takes(s, s.procs[w], job) {
      Recount(InHands(s), InHands(s'), {}, {w});
    } else {
      SubsetSize(InHands(s'), InHands(s));
    }
  }

  lemma OverlapNeedsTwoLeft(s: Inst, step: Step)
    requires Overlap(s, step)
    ensures TwoLeft(s)
  {
    var a :| a in s.procs && InHand(s.procs[a]);
    SubsetSize({a, step.p}, Takers(s));
    SubsetSize({a}, InHands(s));
  }

  lemma {:induction false} ClosedOrderStays(s: Inst, later: seq<Step>)
    requires Sound(s) && InOrder(s) && s.closed && !TwoLeft(s)
    ensures var e := Run(s, later); InOrder(e) && e.closed && !TwoLeft(e)
  {
    if later == [] {
    } else {
      var before, step := later[..|later| - 1], later[|later| - 1];
      var e := Run(s, before);
      ClosedOrderStays(s, before);
      RunSound(s, before);
      StageKept(e, step);
      TakersFall(e, step);
      RequestsFall(e, step);
      if Overlap(e, step) {
        OverlapNeedsTwoLeft(e, step);
      }
      OrderStep(e, step);
    }
  }

  // ---- the order, exactly

  /** While the queue is open: two free slots, and a queue that somebody can send to or drain.
      After that: two goroutines that can take a request, and two requests for them. */
  ghost predicate CanOvertake(s: Inst) {
    if s.closed then TwoLeft(s) else Servers(s) == 2 && HasRoom(s)
  }

  /** For every run that has kept the order so far: it can go on to upset it if and only if
      the state allows it. */
  lemma OrderBreaksIff(life: int, gap: int, steps: seq<Step>)
    requires var s := Run(Fresh(life, gap), steps); InOrder(s) && !s.crashed
    ensures var s := Run(Fresh(life, gap), steps);
            (exists later :: !InOrder(Run(s, later)) && !Run(s, later).crashed) <==> CanOvertake(s)
  {
    var s := Run(Fresh(life, gap), steps);
    ReachedSound(life, gap, steps);
    if CanOvertake(s) {
      var later;
      if s.closed {
        later := OvertakeClosed(s);
      } else {
        later := Overtake(s);
      }
      assert !InOrder(Run(s, later));
    } else {
      forall later
        ensures InOrder(Run(s, later))
      {
        if s.closed {
          ClosedOrderStays(s, later);
        } else {
          OrderStays(s, later);
        }
      }
    }
  }

  /** With fewer than two slots left nothing can be upset. */
  lemma OneSlotKeepsOrder(s: Inst)
    requires Slots(s) <= 1
    ensures !CanOvertake(s)
  {
    SubsetSize(Takers(s), Candidates(s));
  }

  /** The calls given to the guest, the one in hand and the queue are exactly the calls sent,
      in order: in every run with no reset after the tick, and in every continuation of a run
      that has kept the order up to a state that cannot upset it. */
  lemma NothingLostOrReordered(life: int, gap: int, steps: seq<Step>, later: seq<Step>)
    requires || !Ever(LateReset, Fresh(life, gap), steps + later)
             || (InOrder(Run(Fresh(life, gap), steps)) && !CanOvertake(Run(Fresh(life, gap), steps)))
    ensures var e := Run(Fresh(life, gap), steps + later);
            OneInHand(e.procs) && e.log.enqueued == Calls(e.log.served) + Hand(e.procs) + e.log.queue
  {
    var s := Run(Fresh(life, gap), steps);
    RunIsGood(life, gap, steps + later);
    if !Ever(LateReset, Fresh(life, gap), steps + later) {
      DoomedIff(life, gap, steps + later);
      InOrderUnlessDoomed(life, gap, steps + later);
    } else {
      ReachedSound(life, gap, steps);
      RunAppend(Fresh(life, gap), steps, later);
      if s.closed {
        ClosedOrderStays(s, later);
      } else {
        OrderStays(s, later);
      }
    }
  }
}
