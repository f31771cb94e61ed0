/** Single-flight starts and downloads (pkg/runner/grpc.go:180-206, 239-272): the first
    caller for a path leads, the others subscribe to its consumer. Callers are program
    counters over the shared maps; a run is any sequence of steps, and a step that is not
    enabled changes nothing. Looking up the consumer and subscribing to it are two steps,
    as they are for downloads; starts do both under one lock, which allows fewer runs. */
module SingleFlight {
  import opened Prelude
  import opened Broadcast

  type Pid = nat
  type Path = string

  datatype Res = Ok(id: string) | Err(message: string)

  datatype Kind = Start | Download

  datatype Proc =
    | Calling(path: Path)
    | Leading(path: Path)                    // claimed the path, work in progress
    | Worked(path: Path, res: Res)           // work returned, path still claimed
    | Released(path: Path, res: Res)         // path given up
    | Ready(path: Path, res: Res)            // a started instance is registered
    | Submitted(path: Path, res: Res)
    | Joining(path: Path, leader: Pid)       // found a consumer, not yet subscribed
    | Waiting(path: Path, leader: Pid)
    | Got(path: Path, leader: Pid, res: Res)
    | Quit(path: Path, leader: Pid)          // context done while waiting for a download

  /** A consumer carries its leader's id. Its channels are handed out and filled as by
      Broadcast.MultiConsumer. */
  datatype Consumer = Consumer(result: Option<Res>, subs: set<Pid>)

  datatype State = State(
    kind: Kind,
    claimed: map<Path, Pid>,
    consumers: map<Pid, Consumer>,
    chans: map<Pid, Chan<Res>>,
    procs: map<Pid, Proc>,
    published: set<string>)  // instances registered, or files put in place, so far

  datatype Act = Claim | Finish(res: Res) | Release | Register | Submit | Subscribe | Receive | Cancel

  datatype Step = Arrive(p: Pid, path: Path) | Do(p: Pid, act: Act)

  function Init(kind: Kind): State {
    State(kind, map[], map[], map[], map[], {})
  }

  function To(s: State, p: Pid, proc: Proc): State {
    s.(procs := s.procs[p := proc])
  }

  /** The result becomes available to followers. */
  function Publish(s: State, kind: Kind, res: Res): State {
    if s.kind == kind && res.Ok? then s.(published := s.published + {res.id}) else s
  }

  function Next(s: State, step: Step): State {
    match step
    case Arrive(p, path) => if p in s.procs then s else To(s, p, Calling(path))
    case Do(p, act) => if p in s.procs then Advance(s, p, act, s.procs[p]) else s
  }

  function Advance(s: State, p: Pid, act: Act, proc: Proc): State {
    match act
    case Claim =>
      if !proc.Calling? then s
      else if proc.path in s.claimed then To(s, p, Joining(proc.path, s.claimed[proc.path]))
      else
        To(s.(claimed := s.claimed[proc.path := p], consumers := s.consumers[p := Consumer(None, {})]), p,
           Leading(proc.path))
    case Finish(res) =>
      // a downloaded file is in place when the download returns
      if proc.Leading? then To(Publish(s, Download, res), p, Worked(proc.path, res)) else s
    case Release =>
      if proc.Worked? then To(s.(claimed := s.claimed - {proc.path}), p, Released(proc.path, proc.res)) else s
    case Register =>
      // a started instance is registered after its path is released
      if proc.Released? then To(Publish(s, Start, proc.res), p, Ready(proc.path, proc.res)) else s
    case Submit =>
      if proc.Ready? && p in s.consumers then
        To(s.(chans := DeliveredTo(s.chans, s.consumers[p].subs, proc.res),
              consumers := s.consumers[p := Consumer(Some(proc.res), {})]), p, Submitted(proc.path, proc.res))
      else s
    case Subscribe =>
      if proc.Joining? && proc.leader in s.consumers then
        To(Subscribed(s, p, proc.leader), p, Waiting(proc.path, proc.leader))
      else s
    case Receive =>
      if proc.Waiting? && p in s.chans && s.chans[p].buffer != [] then
        To(s.(chans := s.chans[p := Chan(s.chans[p].buffer[1..], s.chans[p].closed)]), p,
           Got(proc.path, proc.leader, s.chans[p].buffer[0]))
      else s
    case Cancel =>
      if proc.Waiting? && s.kind == Download then To(s, p, Quit(proc.path, proc.leader)) else s
  }

  /** SubmitResult: one value into each subscriber's channel, which is then closed. */
  function DeliveredTo(chans: map<Pid, Chan<Res>>, subs: set<Pid>, res: Res): map<Pid, Chan<Res>> {
    map a | a in chans :: if a in subs then Delivered(chans[a], res) else chans[a]
  }

  /** AddSub: the known result at once, or a place among the subscribers. */
  function Subscribed(s: State, p: Pid, leader: Pid): State
    requires leader in s.consumers
  {
    var c := s.consumers[leader];
    var handed := s.(chans := s.chans[p := Handed(c.result)]);
    if c.result.Some? then handed
    else handed.(consumers := s.consumers[leader := Consumer(None, c.subs + {p})])
  }

  function Run(s: State, steps: seq<Step>): State {
    if steps == [] then s else Next(Run(s, steps[..|steps| - 1]), steps[|steps| - 1])
  }

  // ---- the invariant

  /** Work for the path is in progress or its claim still stands. */
  predicate InFlight(p: Proc) {
    p.Leading? || p.Worked?
  }

  predicate Leader(p: Proc) {
    InFlight(p) || p.Released? || p.Ready? || p.Submitted?
  }

  predicate Shown(s: State, res: Res) {
    res.Ok? ==> res.id in s.published
  }

  predicate Follows(s: State, leader: Pid, path: Path) {
    leader in s.procs && Leader(s.procs[leader]) && s.procs[leader].path == path && leader in s.consumers
  }

  predicate ProcOk(s: State, a: Pid, p: Proc) {
    match p
    case Leading(path) => path in s.claimed && s.claimed[path] == a && a in s.consumers && s.consumers[a].result == None
    case Worked(path, res) =>
      && path in s.claimed && s.claimed[path] == a && a in s.consumers && s.consumers[a].result == None
      && (s.kind == Download ==> Shown(s, res))
    case Released(_, res) =>
      a in s.consumers && s.consumers[a].result == None && (s.kind == Download ==> Shown(s, res))
    case Ready(_, res) => a in s.consumers && s.consumers[a].result == None && Shown(s, res)
    case Submitted(_, res) => a in s.consumers && s.consumers[a].result == Some(res) && Shown(s, res)
    case Joining(path, l) => Follows(s, l, path)
    case Waiting(path, l) =>
      && Follows(s, l, path) && a in s.chans && s.chans[a] == Handed(s.consumers[l].result)
      && (s.consumers[l].result.None? ==> a in s.consumers[l].subs)
    case Got(path, l, res) =>
      && Follows(s, l, path) && s.procs[l] == Submitted(path, res)
      && a in s.chans && s.chans[a] == Chan([], true)
    case _ => true
  }

  predicate ClaimOk(s: State, path: Path) {
    path in s.claimed ==>
      s.claimed[path] in s.procs && InFlight(s.procs[s.claimed[path]]) && s.procs[s.claimed[path]].path == path
  }

  /** Until the result is known the subscribers' channels are empty and open. */
  predicate SubOk(s: State, l: Pid, a: Pid) {
    && a in s.procs && a in s.chans && s.chans[a] == Chan([], false)
    && (s.procs[a].Quit? || s.procs[a].Waiting?) && s.procs[a].leader == l
  }

  ghost predicate ConsumerOk(s: State, l: Pid) {
    l in s.consumers ==>
      && l in s.procs && Leader(s.procs[l])
      && (s.consumers[l].result.Some? ==>
            s.procs[l] == Submitted(s.procs[l].path, s.consumers[l].result.value) && s.consumers[l].subs == {})
      && (forall a :: a in s.consumers[l].subs ==> SubOk(s, l, a))
  }

  ghost predicate Inv(s: State) {
    && (forall a :: a in s.procs ==> ProcOk(s, a, s.procs[a]))
    && (forall path :: ClaimOk(s, path))
    && (forall l :: ConsumerOk(s, l))
  }

  /** A goroutine that moves relies on its own consumer, its leader's one and the claim of its
      path. */
  lemma MoverKept(s: State, p: Pid, act: Act)
    requires Inv(s) && p in s.procs
    ensures var s' := Advance(s, p, act, s.procs[p]);
            p in s'.procs && ProcOk(s', p, s'.procs[p])
  {
    assert ProcOk(s, p, s.procs[p]) && ConsumerOk(s, p);
    if act.Claim? && s.procs[p].Calling? && s.procs[p].path in s.claimed {
      assert ClaimOk(s, s.procs[p].path);
      assert ProcOk(s, s.claimed[s.procs[p].path], s.procs[s.claimed[s.procs[p].path]]);
    }
  }

  /** The shared state seen by the others: results stay, consumers and their subscribers only
      grow, and claims and channels of others are left alone. */
  ghost predicate Extends(s: State, s': State, p: Pid) {
    && s'.kind == s.kind && s.published <= s'.published
    && p in s.procs && p in s'.procs && s'.procs == s.procs[p := s'.procs[p]]
    && (Leader(s.procs[p]) ==> Leader(s'.procs[p]) && s'.procs[p].path == s.procs[p].path)
    && (s.procs[p].Submitted? ==> s'.procs[p] == s.procs[p])
    && (forall l :: l in s.consumers && (l != p || Leader(s.procs[p])) ==>
          l in s'.consumers && s'.consumers[l].result == s.consumers[l].result && s.consumers[l].subs <= s'.consumers[l].subs)
    && (forall a :: a in s.chans && a != p ==> a in s'.chans && s'.chans[a] == s.chans[a])
    && (forall path :: path in s.claimed && s.claimed[path] != p ==> path in s'.claimed && s'.claimed[path] == s.claimed[path])
  }

  lemma ActExtends(s: State, p: Pid, act: Act)
    requires Inv(s) && p in s.procs && !act.Submit?
    ensures Extends(s, Advance(s, p, act, s.procs[p]), p)
  {
    assert ProcOk(s, p, s.procs[p]) && ConsumerOk(s, p);
  }

  lemma OtherKept(s: State, s': State, p: Pid, a: Pid)
    requires Extends(s, s', p) && a in s.procs && a != p && ProcOk(s, a, s.procs[a])
    ensures ProcOk(s', a, s'.procs[a])
  {
  }

  lemma OtherKeptBySubmit(s: State, p: Pid, a: Pid)
    requires Inv(s) && p in s.procs && a in s.procs && a != p
    ensures var s' := Advance(s, p, Submit, s.procs[p]);
            a in s'.procs && ProcOk(s', a, s'.procs[a])
  {
    assert ProcOk(s, p, s.procs[p]) && ProcOk(s, a, s.procs[a]) && ConsumerOk(s, p);
    if p in s.consumers && a in s.consumers[p].subs {
      assert SubOk(s, p, a);
    }
  }

  lemma ClaimKept(s: State, p: Pid, act: Act, path: Path)
    requires Inv(s) && p in s.procs
    ensures ClaimOk(Advance(s, p, act, s.procs[p]), path)
  {
    assert ProcOk(s, p, s.procs[p]) && ClaimOk(s, path);
  }

  /** A subscriber belongs to one leader, and nobody else's channel is touched. */
  lemma SubKept(s: State, p: Pid, act: Act, l: Pid, a: Pid)
    requires Inv(s) && p in s.procs && l in s.consumers && a in s.consumers[l].subs
    requires !(l == p && act.Submit? && s.procs[p].Ready?)
    ensures SubOk(Advance(s, p, act, s.procs[p]), l, a)
  {
    assert ConsumerOk(s, l) && SubOk(s, l, a) && ConsumerOk(s, p) && ProcOk(s, p, s.procs[p]);
    if p in s.consumers && a in s.consumers[p].subs {
      assert SubOk(s, p, a);
    }
  }

  lemma ConsumerKept(s: State, p: Pid, act: Act, l: Pid)
    requires Inv(s) && p in s.procs
    ensures ConsumerOk(Advance(s, p, act, s.procs[p]), l)
  {
    var s' := Advance(s, p, act, s.procs[p]);
    assert ProcOk(s, p, s.procs[p]) && ConsumerOk(s, l);
    if l in s'.consumers {
      forall a | a in s'.consumers[l].subs
        ensures SubOk(s', l, a)
      {
        if l in s.consumers && a in s.consumers[l].subs {
          SubKept(s, p, act, l, a);
        }
      }
    }
  }

  lemma ActKeeps(s: State, p: Pid, act: Act)
    requires Inv(s) && p in s.procs
    ensures Inv(Advance(s, p, act, s.procs[p]))
  {
    var s' := Advance(s, p, act, s.procs[p]);
    assert s'.procs.Keys == s.procs.Keys;
    forall a | a in s'.procs
      ensures ProcOk(s', a, s'.procs[a])
    {
      if a == p {
        MoverKept(s, p, act);
      } else if act.Submit? {
        OtherKeptBySubmit(s, p, a);
      } else {
        ActExtends(s, p, act);
        assert ProcOk(s, a, s.procs[a]);
        OtherKept(s, s', p, a);
      }
    }
    forall path
      ensures ClaimOk(s', path)
    {
      ClaimKept(s, p, act, path);
    }
    forall l
      ensures ConsumerOk(s', l)
    {
      ConsumerKept(s, p, act, l);
    }
  }

  lemma ArriveKeeps(s: State, p: Pid, path: Path)
    requires Inv(s) && p !in s.procs
    ensures Inv(To(s, p, Calling(path)))
  {
    var s' := To(s, p, Calling(path));
    forall a | a in s'.procs
      ensures ProcOk(s', a, s'.procs[a])
    {
      assert a in s.procs ==> ProcOk(s, a, s.procs[a]);
    }
    forall q
      ensures ClaimOk(s', q)
    {
      assert ClaimOk(s, q);
    }
    forall l
      ensures ConsumerOk(s', l)
    {
      assert ConsumerOk(s, l);
    }
  }

  lemma StepKeepsInv(s: State, step: Step)
    requires Inv(s)
    ensures Inv(Next(s, step))
  {
    match step
    case Arrive(p, path) =>
      if p !in s.procs {
        ArriveKeeps(s, p, path);
      }
    case Do(p, act) =>
      if p in s.procs {
        ActKeeps(s, p, act);
      }
  }

  lemma {:induction false} RunKeepsInv(kind: Kind, steps: seq<Step>)
    ensures Inv(Run(Init(kind), steps))
  {
    if steps == [] {
    } else {
      RunKeepsInv(kind, steps[..|steps| - 1]);
      StepKeepsInv(Run(Init(kind), steps[..|steps| - 1]), steps[|steps| - 1]);
    }
  }

  // ---- where results come from

  /** The goroutine has a result of its own work. */
  predicate HasResult(p: Proc) {
    p.Worked? || p.Released? || p.Ready? || p.Submitted?
  }

  /** The k-th step is the end of the leader's work for the path, with that result. */
  predicate FinishedAt(kind: Kind, steps: seq<Step>, p: Pid, path: Path, res: Res, k: nat) {
    && k < |steps| && steps[k] == Do(p, Finish(res))
    && p in Run(Init(kind), steps[..k]).procs && Run(Init(kind), steps[..k]).procs[p] == Leading(path)
  }

  lemma RunTo(kind: Kind, steps: seq<Step>, n: nat)
    requires n < |steps|
    ensures Run(Init(kind), steps[..n + 1]) == Next(Run(Init(kind), steps[..n]), steps[n])
  {
    assert steps[..n + 1][..n] == steps[..n];
  }

  /** A goroutine's operation moves it alone, keeps its path, and makes a result only at the
      end of its work. */
  lemma ActMoves(s: State, p: Pid, act: Act)
    requires p in s.procs
    ensures var s' := Advance(s, p, act, s.procs[p]);
            && p in s'.procs && s'.procs == s.procs[p := s'.procs[p]] && s'.procs[p].path == s.procs[p].path
            && (HasResult(s'.procs[p]) ==>
                  || (HasResult(s.procs[p]) && s.procs[p].res == s'.procs[p].res)
                  || (s.procs[p].Leading? && act == Finish(s'.procs[p].res)))
  {
    match act
    case Claim =>
    case Finish(_) =>
    case Release =>
    case Register =>
    case Submit =>
    case Subscribe =>
    case Receive =>
    case Cancel =>
  }

  /** A result is new only by the step that ends the work. */
  lemma ResultStep(s: State, step: Step, p: Pid)
    requires p in Next(s, step).procs && HasResult(Next(s, step).procs[p])
    ensures var q := Next(s, step).procs[p];
            p in s.procs &&
            ((HasResult(s.procs[p]) && s.procs[p].path == q.path && s.procs[p].res == q.res)
             || (s.procs[p] == Leading(q.path) && step == Do(p, Finish(q.res))))
  {
    if step.Do? && step.p in s.procs {
      ActMoves(s, step.p, step.act);
    }
  }

  /** Every result a leader holds, releases or submits is that of its own work. */
  lemma {:induction false} ResultOfWork(kind: Kind, steps: seq<Step>, p: Pid, n: nat) returns (k: nat)
    requires n <= |steps|
    requires var s := Run(Init(kind), steps[..n]); p in s.procs && HasResult(s.procs[p])
    ensures var q := Run(Init(kind), steps[..n]).procs[p];
            k < n && FinishedAt(kind, steps, p, q.path, q.res, k)
  {
    var s := Run(Init(kind), steps[..n - 1]);
    RunTo(kind, steps, n - 1);
    ResultStep(s, steps[n - 1], p);
    if HasResult(s.procs[p]) {
      k := ResultOfWork(kind, steps, p, n - 1);
    } else {
      k := n - 1;
    }
  }

  lemma PublishStep(s: State, step: Step, id: string)
    requires id in Next(s, step).published && id !in s.published
    ensures var q := Next(s, step).procs; step.Do? && step.p in q && HasResult(q[step.p]) && q[step.p].res == Ok(id)
  {
  }

  /** Only successful work is published. */
  lemma {:induction false} PublishedWork(kind: Kind, steps: seq<Step>, id: string, n: nat)
    returns (p: Pid, path: Path, k: nat)
    requires n <= |steps| && id in Run(Init(kind), steps[..n]).published
    ensures k < n && FinishedAt(kind, steps, p, path, Ok(id), k)
  {
    var s := Run(Init(kind), steps[..n - 1]);
    RunTo(kind, steps, n - 1);
    if id in s.published {
      p, path, k := PublishedWork(kind, steps, id, n - 1);
    } else {
      PublishStep(s, steps[n - 1], id);
      p := steps[n - 1].p;
      path := Run(Init(kind), steps[..n]).procs[p].path;
      k := ResultOfWork(kind, steps, p, n);
    }
  }

  /** Everybody works for the path it called for. */
  lemma {:induction false} PathAsCalled(kind: Kind, steps: seq<Step>, p: Pid, n: nat)
    requires n <= |steps| && p in Run(Init(kind), steps[..n]).procs
    ensures Arrive(p, Run(Init(kind), steps[..n]).procs[p].path) in steps[..n]
  {
    var s, s' := Run(Init(kind), steps[..n - 1]), Run(Init(kind), steps[..n]);
    RunTo(kind, steps, n - 1);
    assert steps[..n] == steps[..n - 1] + [steps[n - 1]];
    if p in s.procs {
      PathAsCalled(kind, steps, p, n - 1);
      PathStep(s, steps[n - 1], p);
    } else {
      NewcomerArrives(s, steps[n - 1], p);
    }
  }

  lemma PathStep(s: State, step: Step, p: Pid)
    requires p in s.procs
    ensures p in Next(s, step).procs && Next(s, step).procs[p].path == s.procs[p].path
  {
    if step.Do? && step.p in s.procs {
      ActMoves(s, step.p, step.act);
    }
  }

  lemma NewcomerArrives(s: State, step: Step, p: Pid)
    requires p !in s.procs && p in Next(s, step).procs
    ensures step == Arrive(p, Next(s, step).procs[p].path)
  {
    if step.Do? && step.p in s.procs {
      ActMoves(s, step.p, step.act);
    }
  }

  // ---- every operation is taken

  /** A caller leads iff nobody has claimed the path; otherwise it joins the one who has. */
  lemma CallerClaims(s: State, p: Pid, path: Path)
    requires p in s.procs && s.procs[p] == Calling(path)
    ensures var e := Next(s, Do(p, Claim));
            if path in s.claimed then e == To(s, p, Joining(path, s.claimed[path]))
            else p in e.procs && e.procs[p] == Leading(path) && e.claimed == s.claimed[path := p] &&
                 p in e.consumers && e.consumers[p] == Consumer(None, {})
  {
  }

  /** A leader that has worked, well or not, gives up the path and submits its result. */
  lemma LeaderSubmits(s: State, p: Pid, path: Path, res: Res)
    requires Inv(s) && p in s.procs && s.procs[p] == Leading(path)
    ensures var released := Next(Next(s, Do(p, Finish(res))), Do(p, Release));
            var e := Next(Next(released, Do(p, Register)), Do(p, Submit));
            && path !in e.claimed && p in e.procs && e.procs[p] == Submitted(path, res)
            && p in e.consumers && e.consumers[p] == Consumer(Some(res), {})
  {
    assert ProcOk(s, p, s.procs[p]);
  }

  /** One that joins subscribes, before the result is known or after. */
  lemma FollowerSubscribes(s: State, a: Pid, path: Path, l: Pid)
    requires Inv(s) && a in s.procs && s.procs[a] == Joining(path, l)
    ensures var e := Next(s, Do(a, Subscribe));
            && a in e.procs && e.procs[a] == Waiting(path, l) && l in s.consumers && a in e.chans
            && e.chans[a] == (if s.consumers[l].result.Some? then Chan([s.consumers[l].result.value], true) else Chan([], false))
            && (s.consumers[l].result.None? ==> l in e.consumers && a in e.consumers[l].subs)
  {
    assert ProcOk(s, a, s.procs[a]);
  }

  /** A follower of a leader that has submitted receives the result, whatever it is. */
  lemma FollowerReceives(s: State, a: Pid, path: Path, l: Pid)
    requires Inv(s) && a in s.procs && s.procs[a] == Waiting(path, l) && l in s.procs && s.procs[l].Submitted?
    ensures var e := Next(s, Do(a, Receive)); a in e.procs && e.procs[a] == Got(path, l, s.procs[l].res)
  {
    assert ProcOk(s, a, s.procs[a]) && ProcOk(s, l, s.procs[l]);
  }

  /** Only a follower of a download may give up, and it gives up nothing but itself. */
  lemma FollowerGivesUp(s: State, a: Pid, path: Path, l: Pid)
    requires a in s.procs && s.procs[a] == Waiting(path, l)
    ensures Next(s, Do(a, Cancel)) == if s.kind == Download then To(s, a, Quit(path, l)) else s
  {
  }

  // ---- every run

  /** For each path at most one start, or one download, is in progress. */
  lemma OneInFlight(kind: Kind, steps: seq<Step>, a: Pid, b: Pid)
    requires var s := Run(Init(kind), steps);
             a in s.procs && b in s.procs && InFlight(s.procs[a]) && InFlight(s.procs[b])
    ensures var s := Run(Init(kind), steps);
            s.procs[a].path == s.procs[b].path <==> a == b
  {
    RunKeepsInv(kind, steps);
    var s := Run(Init(kind), steps);
    assert ProcOk(s, a, s.procs[a]) && ProcOk(s, b, s.procs[b]);
  }

  /** A follower's result is the one its leader's work for the same path ended with, it was
      submitted, and a successful one was registered, or in place, before the follower saw
      it. */
  lemma FollowerGetsLeadersResult(kind: Kind, steps: seq<Step>, a: Pid) returns (k: nat)
    requires var s := Run(Init(kind), steps); a in s.procs && s.procs[a].Got?
    ensures var s := Run(Init(kind), steps);
            var f := s.procs[a];
            && f.leader in s.procs && s.procs[f.leader] == Submitted(f.path, f.res)
            && (f.res.Ok? ==> f.res.id in s.published)
            && a in s.chans && s.chans[a] == Chan([], true)
            && FinishedAt(kind, steps, f.leader, f.path, f.res, k)
  {
    RunKeepsInv(kind, steps);
    var s := Run(Init(kind), steps);
    assert ProcOk(s, a, s.procs[a]) && ProcOk(s, s.procs[a].leader, s.procs[s.procs[a].leader]);
    assert steps[..|steps|] == steps;
    k := ResultOfWork(kind, steps, s.procs[a].leader, |steps|);
  }

  /** Whether it subscribed before or after the submission, a follower that still waits
      when its leader has submitted finds exactly that result in its channel. */
  lemma ResultIsWaiting(kind: Kind, steps: seq<Step>, a: Pid)
    requires var s := Run(Init(kind), steps);
             a in s.procs && s.procs[a].Waiting? && s.procs[a].leader in s.procs && s.procs[s.procs[a].leader].Submitted?
    ensures var s := Run(Init(kind), steps);
            a in s.chans && s.chans[a] == Chan([s.procs[s.procs[a].leader].res], true)
  {
    RunKeepsInv(kind, steps);
    var s := Run(Init(kind), steps);
    assert ProcOk(s, a, s.procs[a]) && ProcOk(s, s.procs[a].leader, s.procs[s.procs[a].leader]);
  }

  /** Submitting never blocks and never sends on a closed channel, even to followers that
      have given up. */
  lemma SubmitNeverBlocks(kind: Kind, steps: seq<Step>, p: Pid, a: Pid)
    requires var s := Run(Init(kind), steps); p in s.consumers && a in s.consumers[p].subs
    ensures var s := Run(Init(kind), steps); a in s.chans && s.chans[a].buffer == [] && !s.chans[a].closed
  {
    RunKeepsInv(kind, steps);
    assert ConsumerOk(Run(Init(kind), steps), p) && SubOk(Run(Init(kind), steps), p, a);
  }
}
