/** The invocation queue of an instance in every interleaving: first in, first out, no
    loss and no duplication, and each caller gets the reply to its own request. */
module InstanceQueue {
  import opened InstanceProtocol

  function Calls(served: seq<Answer>): seq<Call> {
    seq(|served|, k requires 0 <= k < |served| => served[k].call)
  }

  /** The worker has taken a request and not yet handed it to the guest. */
  predicate InHand(p: Proc) {
    p.Worker? && p.wpc.Invoking?
  }

  lemma CallsAppend(served: seq<Answer>, a: Answer)
    ensures Calls(served + [a]) == Calls(served) + [a.call]
  {
  }

  lemma CallerLog(s: Inst, p: Pid, c: Proc, act: CallerAct)
    requires c.Caller?
    ensures CallerDoes(s, p, c, act).log == if act.Send? && CanSend(s, c) then Sent(s.log, Call(p, c.req)) else s.log
  {
  }

  predicate Takes(s: Inst, k: Proc, job: WorkerAct) {
    k.Worker? && job.Receive? && k.wpc.Selecting? && s.log.queue != []
  }

  lemma WorkerLog(s: Inst, k: Proc, job: WorkerAct)
    requires k.Worker?
    ensures var log := WorkerDoes(s, k, job).log;
            if Takes(s, k, job) then log == Took(s.log) && WorkerGoes(s, k, job) == Invoking(s.log.queue[0])
            else if job.Invoke? && InHand(k) then
              log == s.log.(served := s.log.served + [Answer(k.wpc.call, job.reply)]) && !WorkerGoes(s, k, job).Invoking?
            else log == s.log && (WorkerGoes(s, k, job).Invoking? ==> WorkerGoes(s, k, job) == k.wpc)
  {
  }

  // ---- the channel

  /** The channel hands over exactly the calls sent, in order. */
  predicate Fifo(log: Log) {
    |log.queue| <= QUEUE_MAX && log.enqueued == log.taken + log.queue
  }

  lemma FifoKept(s: Inst, step: Step)
    requires Fifo(s.log)
    ensures Fifo(Next(s, step).log)
  {
    if !s.crashed && step.Ask? && step.p in s.procs && s.procs[step.p].Caller? {
      CallerLog(s, step.p, s.procs[step.p], step.act);
    } else if !s.crashed && step.Work? && step.p in s.procs && s.procs[step.p].Worker? {
      WorkerLog(s, s.procs[step.p], step.job);
    } else {
      assert Next(s, step).log == s.log;
    }
  }

  // ---- senders

  predicate HasSent(p: Proc) {
    p.Caller? && (p.pc.Spawning? || p.pc.Awaiting? || p.pc.Answered? || p.pc.Gone?)
  }

  predicate SenderOk(procs: map<Pid, Proc>, c: Call) {
    c.caller in procs && HasSent(procs[c.caller]) && procs[c.caller].req == c.req
  }

  /** Each call in the history is its caller's only one. */
  ghost predicate Senders(procs: map<Pid, Proc>, sent: seq<Call>) {
    && (forall k :: 0 <= k < |sent| ==> SenderOk(procs, sent[k]))
    && (forall j, k :: 0 <= j < k < |sent| ==> sent[j].caller != sent[k].caller)
  }

  /** A reply on its way, or received, is the guest's reply to that very call. */
  predicate ReplyOk(served: seq<Answer>, a: Pid, p: Proc) {
    match p
    case Caller(req, _, pc) => pc.Answered? ==> Answer(Call(a, req), pc.reply) in served
    case Worker(_, wpc) => wpc.Replying? ==> Answer(wpc.call, wpc.reply) in served
  }

  ghost predicate Replies(procs: map<Pid, Proc>, served: seq<Answer>) {
    forall a :: a in procs ==> ReplyOk(served, a, procs[a])
  }

  /** A caller that has sent stays a sender with its request. */
  lemma SendersMoved(procs: map<Pid, Proc>, sent: seq<Call>, p: Pid, q: Proc)
    requires Senders(procs, sent)
    requires p in procs && HasSent(procs[p]) ==> HasSent(q) && q.req == procs[p].req
    ensures Senders(procs[p := q], sent)
  {
    forall k | 0 <= k < |sent|
      ensures SenderOk(procs[p := q], sent[k])
    {
      assert SenderOk(procs, sent[k]);
    }
  }

  lemma SendersBySend(procs: map<Pid, Proc>, sent: seq<Call>, p: Pid, q: Proc)
    requires Senders(procs, sent) && p in procs && !HasSent(procs[p]) && HasSent(q)
    ensures Senders(procs[p := q], sent + [Call(p, q.req)])
  {
    var sent' := sent + [Call(p, q.req)];
    forall k | 0 <= k < |sent'|
      ensures SenderOk(procs[p := q], sent'[k])
      ensures k < |sent| ==> sent'[k].caller != p
    {
      if k < |sent| {
        assert SenderOk(procs, sent[k]);
      }
    }
  }

  lemma CallerKeepsSent(s: Inst, p: Pid, act: CallerAct)
    requires p in s.procs && s.procs[p].Caller?
    ensures var q := NextCaller(s, p, act).procs[p];
            && (HasSent(s.procs[p]) ==> HasSent(q)) && q.req == s.procs[p].req
            && (act.Send? && CanSend(s, s.procs[p]) ==> HasSent(q) && !HasSent(s.procs[p]))
            && (q.pc.Answered? ==> q == s.procs[p])
  {
  }

  lemma SendersByCaller(s: Inst, p: Pid, act: CallerAct)
    requires Senders(s.procs, s.log.enqueued) && p in s.procs && s.procs[p].Caller?
    ensures Senders(NextCaller(s, p, act).procs, NextCaller(s, p, act).log.enqueued)
  {
    var c, q := s.procs[p], NextCaller(s, p, act).procs[p];
    CallerShared(s, p, c, act);
    CallerLog(s, p, c, act);
    CallerKeepsSent(s, p, act);
    if act.Send? && CanSend(s, c) {
      SendersBySend(s.procs, s.log.enqueued, p, q);
    } else {
      var mid := CallerDoes(s, p, c, act);
      if Spawns(s, c, act) {
        SendersMoved(s.procs, s.log.enqueued, act.w, Worker(false, Selecting));
      }
      SendersMoved(mid.procs, s.log.enqueued, p, q);
    }
  }

  lemma SendersByWorker(s: Inst, w: Pid, job: WorkerAct)
    requires Senders(s.procs, s.log.enqueued) && w in s.procs && s.procs[w].Worker?
    ensures Senders(NextWorker(s, w, job).procs, NextWorker(s, w, job).log.enqueued)
  {
    var k := s.procs[w];
    WorkerShared(s, k, job);
    WorkerLog(s, k, job);
    var mid := WorkerDoes(s, k, job);
    if Responds(s, k, job) {
      SendersMoved(s.procs, s.log.enqueued, k.wpc.call.caller, mid.procs[k.wpc.call.caller]);
    }
    SendersMoved(mid.procs, s.log.enqueued, w, NextWorker(s, w, job).procs[w]);
  }

  lemma SendersKept(s: Inst, step: Step)
    requires Senders(s.procs, s.log.enqueued)
    ensures Senders(Next(s, step).procs, Next(s, step).log.enqueued)
  {
    if !s.crashed {
      match step
      case Ask(p, act) =>
        if p in s.procs && s.procs[p].Caller? {
          SendersByCaller(s, p, act);
        }
      case Work(w, job) =>
        if w in s.procs && s.procs[w].Worker? {
          SendersByWorker(s, w, job);
        }
      case Arrive(p, req) =>
        if p !in s.procs {
          SendersMoved(s.procs, s.log.enqueued, p, Caller(req, false, Looking));
        }
      case _ => assert Next(s, step).procs == s.procs && Next(s, step).log == s.log;
    }
  }

  // ---- each call taken is in one hand or has been served

  ghost predicate InSomeHand(procs: map<Pid, Proc>, c: Call) {
    exists w :: w in procs && InHand(procs[w]) && procs[w].wpc.call == c
  }

  predicate HandOk(log: Log, p: Proc) {
    InHand(p) ==> p.wpc.call in log.taken && p.wpc.call !in Calls(log.served)
  }

  /** A call that has been taken is in exactly one worker's hand or has been given to the
      guest exactly once, not both. */
  ghost predicate Hands(procs: map<Pid, Proc>, log: Log) {
    && (forall w :: w in procs ==> HandOk(log, procs[w]))
    && (forall a, b :: a in procs && b in procs && InHand(procs[a]) && InHand(procs[b]) && procs[a].wpc == procs[b].wpc ==>
          a == b)
    && (forall c :: c in log.taken ==> c in Calls(log.served) || InSomeHand(procs, c))
    && (forall c :: c in Calls(log.served) ==> c in log.taken)
    && Distinct(Calls(log.served))
  }

  ghost predicate Distinct(calls: seq<Call>) {
    forall j, k :: 0 <= j < k < |calls| ==> calls[j] != calls[k]
  }

  /** Nothing that any hand holds or the history says has changed. */
  lemma HandsUntouched(procs: map<Pid, Proc>, log: Log, log': Log, p: Pid, q: Proc)
    requires Hands(procs, log) && log'.taken == log.taken && log'.served == log.served
    requires if p in procs && InHand(procs[p]) then q == procs[p] else !InHand(q)
    ensures Hands(procs[p := q], log')
  {
    var procs' := procs[p := q];
    assert forall w :: w in procs' && InHand(procs'[w]) ==> w in procs && procs'[w] == procs[w];
    forall c | c in log.taken && c !in Calls(log.served)
      ensures InSomeHand(procs', c)
    {
      var w :| w in procs && InHand(procs[w]) && procs[w].wpc.call == c;
      assert w in procs' && procs'[w] == procs[w];
    }
  }

  lemma HandsByReceive(procs: map<Pid, Proc>, log: Log, w: Pid, q: Proc)
    requires Hands(procs, log) && log.queue != [] && log.queue[0] !in log.taken
    requires w in procs && !InHand(procs[w]) && InHand(q) && q.wpc.call == log.queue[0]
    ensures Hands(procs[w := q], Took(log))
  {
    var procs', c0 := procs[w := q], log.queue[0];
    forall a | a in procs' && a != w && InHand(procs'[a])
      ensures HandOk(Took(log), procs'[a]) && procs'[a].wpc.call != c0
    {
      assert HandOk(log, procs[a]);
    }
    assert w in procs' && InHand(procs'[w]) && procs'[w].wpc.call == c0;
    forall c | c in log.taken && c !in Calls(log.served)
      ensures InSomeHand(procs', c)
    {
      var a :| a in procs && InHand(procs[a]) && procs[a].wpc.call == c;
      assert a in procs' && procs'[a] == procs[a];
    }
  }

  lemma HandsByInvoke(procs: map<Pid, Proc>, log: Log, w: Pid, q: Proc, reply: Reply)
    requires Hands(procs, log) && w in procs && InHand(procs[w]) && !InHand(q)
    ensures Hands(procs[w := q], log.(served := log.served + [Answer(procs[w].wpc.call, reply)]))
  {
    var procs', c0 := procs[w := q], procs[w].wpc.call;
    var log' := log.(served := log.served + [Answer(c0, reply)]);
    CallsAppend(log.served, Answer(c0, reply));
    assert HandOk(log, procs[w]);
    forall a | a in procs'
      ensures HandOk(log', procs'[a])
    {
      assert a != w ==> HandOk(log, procs[a]);
    }
    forall c | c in log.taken && c !in Calls(log'.served)
      ensures InSomeHand(procs', c)
    {
      var a :| a in procs && InHand(procs[a]) && procs[a].wpc.call == c;
      assert a in procs' && procs'[a] == procs[a];
    }
  }

  lemma HandsByCaller(s: Inst, p: Pid, act: CallerAct)
    requires Hands(s.procs, s.log) && p in s.procs && s.procs[p].Caller?
    ensures Hands(NextCaller(s, p, act).procs, NextCaller(s, p, act).log)
  {
    var c, mid, s' := s.procs[p], CallerDoes(s, p, s.procs[p], act), NextCaller(s, p, act);
    CallerShared(s, p, c, act);
    CallerLog(s, p, c, act);
    if Spawns(s, c, act) {
      HandsUntouched(s.procs, s.log, mid.log, act.w, Worker(false, Selecting));
      HandsUntouched(mid.procs, mid.log, s'.log, p, s'.procs[p]);
    } else {
      HandsUntouched(s.procs, s.log, s'.log, p, s'.procs[p]);
    }
  }

  /** The next call in the queue has not been taken before. */
  lemma HeadIsNew(s: Inst)
    requires Fifo(s.log) && Senders(s.procs, s.log.enqueued) && s.log.queue != []
    ensures s.log.queue[0] !in s.log.taken
  {
    var n := |s.log.taken|;
    assert s.log.enqueued[n] == s.log.queue[0];
    assert forall k :: 0 <= k < n ==> s.log.enqueued[k] == s.log.taken[k];
  }

  lemma HandsByWorker(s: Inst, w: Pid, job: WorkerAct)
    requires Hands(s.procs, s.log) && Fifo(s.log) && Senders(s.procs, s.log.enqueued)
    requires w in s.procs && s.procs[w].Worker?
    ensures Hands(NextWorker(s, w, job).procs, NextWorker(s, w, job).log)
  {
    var k, mid, s' := s.procs[w], WorkerDoes(s, s.procs[w], job), NextWorker(s, w, job);
    WorkerShared(s, k, job);
    WorkerLog(s, k, job);
    if Takes(s, k, job) {
      HeadIsNew(s);
      HandsByReceive(s.procs, s.log, w, s'.procs[w]);
    } else if job.Invoke? && InHand(k) {
      HandsByInvoke(s.procs, s.log, w, s'.procs[w], job.reply);
    } else {
      if Responds(s, k, job) {
        HandsUntouched(s.procs, s.log, s.log, k.wpc.call.caller, mid.procs[k.wpc.call.caller]);
      }
      HandsUntouched(mid.procs, s.log, s.log, w, s'.procs[w]);
    }
  }

  lemma HandsKept(s: Inst, step: Step)
    requires Hands(s.procs, s.log) && Fifo(s.log) && Senders(s.procs, s.log.enqueued)
    ensures Hands(Next(s, step).procs, Next(s, step).log)
  {
    if !s.crashed {
      match step
      case Ask(p, act) =>
        if p in s.procs && s.procs[p].Caller? {
          HandsByCaller(s, p, act);
        }
      case Work(w, job) =>
        if w in s.procs && s.procs[w].Worker? {
          HandsByWorker(s, w, job);
        }
      case Arrive(p, req) =>
        if p !in s.procs {
          HandsUntouched(s.procs, s.log, s.log, p, Caller(req, false, Looking));
        }
      case _ => assert Next(s, step).procs == s.procs && Next(s, step).log == s.log;
    }
  }

  // ---- the order in which the guest gets the calls

  ghost predicate NoneInHand(procs: map<Pid, Proc>) {
    forall w :: w in procs ==> !InHand(procs[w])
  }

  ghost predicate OneInHand(procs: map<Pid, Proc>) {
    forall a, b :: a in procs && b in procs && InHand(procs[a]) && InHand(procs[b]) ==> a == b
  }

  /** The calls workers have taken and not yet invoked: one of them, if there are any. */
  ghost function Hand(procs: map<Pid, Proc>): seq<Call> {
    if NoneInHand(procs) then []
    else
      var w :| w in procs && InHand(procs[w]);
      [procs[w].wpc.call]
  }

  /** The guest has been given the calls in the order in which they were taken, except for
      one that is still in hand. */
  ghost predicate InOrder(s: Inst) {
    OneInHand(s.procs) && s.log.taken == Calls(s.log.served) + Hand(s.procs)
  }

  /** A worker takes a call while another has one in hand. */
  ghost predicate Overlap(s: Inst, step: Step) {
    && !s.crashed && step.Work? && step.p in s.procs && Takes(s, s.procs[step.p], step.job)
    && !NoneInHand(s.procs)
  }

  lemma HandIs(procs: map<Pid, Proc>, w: Pid)
    requires OneInHand(procs) && w in procs && InHand(procs[w])
    ensures Hand(procs) == [procs[w].wpc.call]
  {
  }

  lemma SameHand(procs: map<Pid, Proc>, p: Pid, q: Proc)
    requires if p in procs && InHand(procs[p]) then q == procs[p] else !InHand(q)
    requires OneInHand(procs)
    ensures OneInHand(procs[p := q]) && Hand(procs[p := q]) == Hand(procs)
  {
    var procs' := procs[p := q];
    assert forall w :: w in procs' && InHand(procs'[w]) ==> w in procs && procs'[w] == procs[w];
    if NoneInHand(procs) {
      assert NoneInHand(procs');
    } else {
      var w :| w in procs && InHand(procs[w]);
      assert w in procs' && procs'[w] == procs[w];
      HandIs(procs, w);
      HandIs(procs', w);
    }
  }

  lemma OrderByCaller(s: Inst, p: Pid, act: CallerAct)
    requires InOrder(s) && p in s.procs && s.procs[p].Caller?
    ensures InOrder(NextCaller(s, p, act))
  {
    var c, mid, s' := s.procs[p], CallerDoes(s, p, s.procs[p], act), NextCaller(s, p, act);
    CallerShared(s, p, c, act);
    CallerLog(s, p, c, act);
    if Spawns(s, c, act) {
      SameHand(s.procs, act.w, Worker(false, Selecting));
    }
    SameHand(mid.procs, p, s'.procs[p]);
  }

  lemma OrderByReceive(s: Inst, w: Pid)
    requires InOrder(s) && w in s.procs && Takes(s, s.procs[w], Receive)
    ensures InOrder(NextWorker(s, w, Receive)) <==> NoneInHand(s.procs)
  {
    var s' := NextWorker(s, w, Receive);
    WorkerLog(s, s.procs[w], Receive);
    assert InHand(s'.procs[w]);
    if NoneInHand(s.procs) {
      assert forall a :: a in s'.procs && a != w ==> a in s.procs && s'.procs[a] == s.procs[a];
      HandIs(s'.procs, w);
      assert Hand(s.procs) == [];
      assert s'.log.taken == Calls(s.log.served) + [s.log.queue[0]];
    } else {
      var a :| a in s.procs && InHand(s.procs[a]);
      assert a != w && s'.procs[a] == s.procs[a];
    }
  }

  lemma OrderByInvoke(s: Inst, w: Pid, reply: Reply)
    requires InOrder(s) && w in s.procs && InHand(s.procs[w])
    ensures InOrder(NextWorker(s, w, Invoke(reply)))
  {
    var s' := NextWorker(s, w, Invoke(reply));
    HandIs(s.procs, w);
    CallsAppend(s.log.served, Answer(s.procs[w].wpc.call, reply));
    assert forall a :: a in s'.procs && a != w ==> a in s.procs && s'.procs[a] == s.procs[a];
    assert NoneInHand(s'.procs);
  }

  lemma OrderByWorker(s: Inst, w: Pid, job: WorkerAct)
    requires InOrder(s) && !s.crashed && w in s.procs && s.procs[w].Worker?
    ensures InOrder(NextWorker(s, w, job)) <==> !Overlap(s, Work(w, job))
  {
    var k, mid, s' := s.procs[w], WorkerDoes(s, s.procs[w], job), NextWorker(s, w, job);
    if Takes(s, k, job) {
      OrderByReceive(s, w);
    } else if job.Invoke? && InHand(k) {
      OrderByInvoke(s, w, job.reply);
    } else {
      WorkerShared(s, k, job);
      WorkerLog(s, k, job);
      BusyStays(s, k, job);
      if Responds(s, k, job) {
        SameHand(s.procs, k.wpc.call.caller, mid.procs[k.wpc.call.caller]);
      }
      SameHand(mid.procs, w, s'.procs[w]);
    }
  }

  lemma BusyStays(s: Inst, k: Proc, job: WorkerAct)
    requires k.Worker? && !(job.Invoke? && InHand(k))
    ensures InHand(k) ==> WorkerGoes(s, k, job) == k.wpc && !(job.SeeIdle? && k.wpc.Selecting?)
  {
  }

  /** The exact step that may upset the order. */
  lemma OrderStep(s: Inst, step: Step)
    requires InOrder(s)
    ensures InOrder(Next(s, step)) <==> !Overlap(s, step)
  {
    if !s.crashed {
      match step
      case Ask(p, act) =>
        if p in s.procs && s.procs[p].Caller? {
          OrderByCaller(s, p, act);
        }
      case Work(w, job) =>
        if w in s.procs && s.procs[w].Worker? {
          OrderByWorker(s, w, job);
        }
      case Arrive(p, req) =>
        if p !in s.procs {
          SameHand(s.procs, p, Caller(req, false, Looking));
        }
      case _ => assert Next(s, step).procs == s.procs && Next(s, step).log == s.log;
    }
  }

  lemma OverlapNeedsTwo(s: Inst, step: Step)
    requires Overlap(s, step)
    ensures !OneCommitted(s)
  {
    var a :| a in s.procs && InHand(s.procs[a]);
    assert Committed(s.procs[a]) && Committed(s.procs[step.p]);
  }

  lemma {:induction false} InOrderUnlessDoomed(life: int, gap: int, steps: seq<Step>)
    ensures Doomed(Run(Fresh(life, gap), steps)) || InOrder(Run(Fresh(life, gap), steps))
  {
    if steps == [] {
      assert InOrder(Fresh(life, gap));
    } else {
      var before, step := steps[..|steps| - 1], steps[|steps| - 1];
      var s := Run(Fresh(life, gap), before);
      InOrderUnlessDoomed(life, gap, before);
      OneCommittedUnlessDoomed(life, gap, before);
      RunPlaced(life, gap, before);
      DoomedIff(life, gap, before);
      DoomedStep(s, step);
      if !Doomed(s) {
        OrderStep(s, step);
        if Overlap(s, step) {
          OverlapNeedsTwo(s, step);
        }
      }
    }
  }

  // ---- replies

  lemma RepliesMoved(procs: map<Pid, Proc>, served: seq<Answer>, p: Pid, q: Proc)
    requires Replies(procs, served) && ReplyOk(served, p, q)
    ensures Replies(procs[p := q], served)
  {
  }

  lemma RepliesGrow(procs: map<Pid, Proc>, served: seq<Answer>, a: Answer)
    requires Replies(procs, served)
    ensures Replies(procs, served + [a])
  {
    forall p | p in procs
      ensures ReplyOk(served + [a], p, procs[p])
    {
      assert ReplyOk(served, p, procs[p]);
    }
  }

  lemma RepliesByCaller(s: Inst, p: Pid, act: CallerAct)
    requires Replies(s.procs, s.log.served) && p in s.procs && s.procs[p].Caller?
    ensures Replies(NextCaller(s, p, act).procs, NextCaller(s, p, act).log.served)
  {
    var c, q := s.procs[p], NextCaller(s, p, act).procs[p];
    CallerShared(s, p, c, act);
    CallerLog(s, p, c, act);
    CallerKeepsSent(s, p, act);
    assert ReplyOk(s.log.served, p, c);
    if Spawns(s, c, act) {
      RepliesMoved(s.procs, s.log.served, act.w, Worker(false, Selecting));
    }
    RepliesMoved(CallerDoes(s, p, c, act).procs, s.log.served, p, q);
  }

  /** A call the guest has answered was sent by its caller. */
  lemma ServedWasSent(s: Inst, a: Answer)
    requires Fifo(s.log) && Hands(s.procs, s.log) && Senders(s.procs, s.log.enqueued) && a in s.log.served
    ensures SenderOk(s.procs, a.call)
  {
    var k :| 0 <= k < |s.log.served| && s.log.served[k] == a;
    assert Calls(s.log.served)[k] == a.call;
    assert a.call in Calls(s.log.served) && a.call in s.log.taken;
    var j :| 0 <= j < |s.log.taken| && s.log.taken[j] == a.call;
    assert SenderOk(s.procs, s.log.enqueued[j]);
  }

  lemma RepliesByWorker(s: Inst, w: Pid, job: WorkerAct)
    requires Fifo(s.log) && Hands(s.procs, s.log) && Senders(s.procs, s.log.enqueued)
    requires Replies(s.procs, s.log.served) && w in s.procs && s.procs[w].Worker?
    ensures Replies(NextWorker(s, w, job).procs, NextWorker(s, w, job).log.served)
  {
    var k, s' := s.procs[w], NextWorker(s, w, job);
    assert ReplyOk(s.log.served, w, k);
    WorkerShared(s, k, job);
    WorkerLog(s, k, job);
    if job.Invoke? && k.wpc.Invoking? {
      var a := Answer(k.wpc.call, job.reply);
      RepliesGrow(s.procs, s.log.served, a);
      RepliesMoved(s.procs, s'.log.served, w, s'.procs[w]);
    } else {
      var mid := WorkerDoes(s, k, job);
      if Responds(s, k, job) {
        ServedWasSent(s, Answer(k.wpc.call, k.wpc.reply));
        RepliesMoved(s.procs, s.log.served, k.wpc.call.caller, mid.procs[k.wpc.call.caller]);
      }
      RepliesMoved(mid.procs, s.log.served, w, s'.procs[w]);
    }
  }

  lemma RepliesKept(s: Inst, step: Step)
    requires Fifo(s.log) && Hands(s.procs, s.log) && Senders(s.procs, s.log.enqueued) && Replies(s.procs, s.log.served)
    ensures Replies(Next(s, step).procs, Next(s, step).log.served)
  {
    if !s.crashed {
      match step
      case Ask(p, act) =>
        if p in s.procs && s.procs[p].Caller? {
          RepliesByCaller(s, p, act);
        }
      case Work(w, job) =>
        if w in s.procs && s.procs[w].Worker? {
          RepliesByWorker(s, w, job);
        }
      case Arrive(p, req) =>
        if p !in s.procs {
          RepliesMoved(s.procs, s.log.served, p, Caller(req, false, Looking));
        }
      case _ => assert Next(s, step).procs == s.procs && Next(s, step).log == s.log;
    }
  }

  // ---- every run

  ghost predicate Good(s: Inst) {
    && Fifo(s.log) && Senders(s.procs, s.log.enqueued) && Hands(s.procs, s.log) && Replies(s.procs, s.log.served)
  }

  lemma GoodKept(s: Inst, step: Step)
    requires Good(s)
    ensures Good(Next(s, step))
  {
    FifoKept(s, step);
    SendersKept(s, step);
    HandsKept(s, step);
    RepliesKept(s, step);
  }

  lemma {:induction false} RunIsGood(life: int, gap: int, steps: seq<Step>)
    ensures Good(Run(Fresh(life, gap), steps))
  {
    if steps == [] {
    } else {
      var before, step := steps[..|steps| - 1], steps[|steps| - 1];
      RunIsGood(life, gap, before);
      GoodKept(Run(Fresh(life, gap), before), step);
    }
  }

  /** In every interleaving the calls taken and the queue are the calls sent, in order, each
      from a different caller, and never more queued than the channel holds. A call taken
      has been given to the guest or is in a worker's hand, not both, and neither twice. */
  lemma NothingLost(life: int, gap: int, steps: seq<Step>)
    ensures var s := Run(Fresh(life, gap), steps);
            && s.log.enqueued == s.log.taken + s.log.queue && |s.log.queue| <= 100
            && (forall j, k :: 0 <= j < k < |s.log.enqueued| ==> s.log.enqueued[j].caller != s.log.enqueued[k].caller)
            && (forall c :: c in s.log.taken <==> c in Calls(s.log.served) || InSomeHand(s.procs, c))
            && (forall c :: c in Calls(s.log.served) ==> !InSomeHand(s.procs, c))
            && Distinct(Calls(s.log.served))
            && (forall a, b :: a in s.procs && b in s.procs && InHand(s.procs[a]) && InHand(s.procs[b]) && a != b ==>
                  s.procs[a].wpc.call != s.procs[b].wpc.call)
  {
    RunIsGood(life, gap, steps);
    var s := Run(Fresh(life, gap), steps);
    forall c | InSomeHand(s.procs, c)
      ensures c in s.log.taken && c !in Calls(s.log.served)
    {
      var w :| w in s.procs && InHand(s.procs[w]) && s.procs[w].wpc.call == c;
      assert HandOk(s.log, s.procs[w]);
    }
  }

  // ---- where requests and replies come from

  lemma RunTo(s: Inst, steps: seq<Step>, n: nat)
    requires n < |steps|
    ensures Run(s, steps[..n + 1]) == Next(Run(s, steps[..n]), steps[n])
  {
    assert steps[..n + 1] == steps[..n] + [steps[n]];
    RunLast(s, steps[..n], steps[n]);
  }

  lemma RequestStep(s: Inst, step: Step, p: Pid)
    requires p in Next(s, step).procs && Next(s, step).procs[p].Caller?
    ensures if p in s.procs then s.procs[p].Caller? && s.procs[p].req == Next(s, step).procs[p].req
            else step == Arrive(p, Next(s, step).procs[p].req)
  {
    if !s.crashed && step.Ask? && step.p in s.procs && s.procs[step.p].Caller? {
      CallerShared(s, step.p, s.procs[step.p], step.act);
    } else if !s.crashed && step.Work? && step.p in s.procs && s.procs[step.p].Worker? {
      WorkerShared(s, s.procs[step.p], step.job);
    }
  }

  /** A caller's request is the one it came with. */
  lemma {:induction false} RequestAsGiven(life: int, gap: int, steps: seq<Step>, n: nat, p: Pid)
    requires n <= |steps|
    requires var s := Run(Fresh(life, gap), steps[..n]); p in s.procs && s.procs[p].Caller?
    ensures Arrive(p, Run(Fresh(life, gap), steps[..n]).procs[p].req) in steps[..n]
  {
    var s := Run(Fresh(life, gap), steps[..n - 1]);
    RunTo(Fresh(life, gap), steps, n - 1);
    RequestStep(s, steps[n - 1], p);
    assert steps[..n] == steps[..n - 1] + [steps[n - 1]];
    if p in s.procs {
      RequestAsGiven(life, gap, steps, n - 1, p);
    }
  }

  /** The step hands the call to the guest, which gives the reply. */
  predicate Invoked(s: Inst, step: Step, a: Answer) {
    && step.Work? && step.job == Invoke(a.reply)
    && step.p in s.procs && InHand(s.procs[step.p]) && s.procs[step.p].wpc.call == a.call
  }

  lemma ServedStep(s: Inst, step: Step, a: Answer)
    requires a in Next(s, step).log.served && a !in s.log.served
    ensures Invoked(s, step, a)
  {
    if !s.crashed && step.Ask? && step.p in s.procs && s.procs[step.p].Caller? {
      CallerLog(s, step.p, s.procs[step.p], step.act);
    } else if !s.crashed && step.Work? && step.p in s.procs && s.procs[step.p].Worker? {
      WorkerLog(s, s.procs[step.p], step.job);
    }
  }

  /** Every reply on record is what the guest gave when a worker invoked it with that call. */
  lemma {:induction false} ReplyOfGuest(life: int, gap: int, steps: seq<Step>, n: nat, a: Answer) returns (k: nat)
    requires n <= |steps| && a in Run(Fresh(life, gap), steps[..n]).log.served
    ensures k < n && Invoked(Run(Fresh(life, gap), steps[..k]), steps[k], a)
  {
    var s := Run(Fresh(life, gap), steps[..n - 1]);
    RunTo(Fresh(life, gap), steps, n - 1);
    if a in s.log.served {
      k := ReplyOfGuest(life, gap, steps, n - 1, a);
    } else {
      ServedStep(s, steps[n - 1], a);
      k := n - 1;
    }
  }

  /** A caller that has been answered got the reply that the guest gave to the request it came
      with, and that request was given to the guest exactly once. */
  lemma AnsweredOnce(life: int, gap: int, steps: seq<Step>, a: Pid) returns (k: nat, i: nat)
    requires var s := Run(Fresh(life, gap), steps);
             a in s.procs && s.procs[a].Caller? && s.procs[a].pc.Answered?
    ensures var s := Run(Fresh(life, gap), steps);
            var answer := Answer(Call(a, s.procs[a].req), s.procs[a].pc.reply);
            && Arrive(a, s.procs[a].req) in steps
            && i < |steps| && Invoked(Run(Fresh(life, gap), steps[..i]), steps[i], answer)
            && k < |s.log.served| && s.log.served[k] == answer
            && forall j :: 0 <= j < |s.log.served| && s.log.served[j].call.caller == a ==> j == k
  {
    var s := Run(Fresh(life, gap), steps);
    RunIsGood(life, gap, steps);
    assert steps[..|steps|] == steps;
    RequestAsGiven(life, gap, steps, |steps|, a);
    assert ReplyOk(s.log.served, a, s.procs[a]);
    k :| 0 <= k < |s.log.served| && s.log.served[k] == Answer(Call(a, s.procs[a].req), s.procs[a].pc.reply);
    i := ReplyOfGuest(life, gap, steps, |steps|, s.log.served[k]);
    forall j | 0 <= j < |s.log.served| && s.log.served[j].call.caller == a
      ensures j == k
    {
      assert Calls(s.log.served)[j] == s.log.served[j].call && Calls(s.log.served)[k] == s.log.served[k].call;
      ServedWasSent(s, s.log.served[j]);
    }
  }

  /** The idle timer's reset never fails for a worker that reaches it. */
  lemma RearmNeverFails(life: int, gap: int, steps: seq<Step>, w: Pid)
    requires var s := Run(Fresh(life, gap), steps);
             w in s.procs && s.procs[w].Worker? && s.procs[w].wpc.Rearming?
    ensures !Run(Fresh(life, gap), steps).procs[w].idle
  {
    RunPlaced(life, gap, steps);
    assert ProcOk(Run(Fresh(life, gap), steps), Run(Fresh(life, gap), steps).procs[w]);
  }
}
