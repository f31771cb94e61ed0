/** The commander under concurrency: registrations, poll tasks, routes and cold starts
    interleave freely, one database query, cache call or remote call at a time. A run is
    any sequence of steps; a step that is not enabled changes nothing. */
module CommanderSteps {
  import opened Prelude
  import opened CacheSpec
  import CacheLaws
  import opened NaiveRouting

  type Tid = nat

  /** Where a request is between two steps. */
  datatype Task =
    | Registering(addr: Addr)                   // before the lookup by address
    | Greeting(addr: Addr)                      // unknown address, before the heartbeat
    | Persisting(addr: Addr)                    // answered, before the upsert
    | Registered(addr: Addr, id: nat)
    | Polling(addr: Addr)                       // a poll task, before its cache call
    | Entering(f: FuncId)                       // before the first cache read
    | Picking(f: FuncId, listed: map<Id, int>)  // has the instances of the function
    | Locating(f: FuncId, i: Id)                // picked an instance, before the address read
    | Weighing(f: FuncId)                       // no healthy instance, before the load read
    | Choosing(f: FuncId, loads: map<Addr, int>)
    | Preparing(f: FuncId, r: Addr)             // before the prepare call returns
    | Storing(f: FuncId, r: Addr, i: Id)        // prepared, before SetInstance
    | Served(f: FuncId, r: Addr, i: Id, warm: bool)
    | Polled
    | Failed

  datatype State = State(
    cache: Cache,
    runners: map<Addr, nat>,
    nextId: nat,
    tasks: map<Tid, Task>)

  datatype Step =
    | Register(t: Tid, addr: Addr)
    | LookUp(t: Tid)
    | Greet(t: Tid, answers: bool)
    | Persist(t: Tid)
    | StartPoll(t: Tid, addr: Addr)
    | CacheHeartbeat(t: Tid, depths: map<Id, Depth>, m: Metrics)
    | CacheEviction(t: Tid)
    | StartRoute(t: Tid, f: FuncId)
    | ReadInstances(t: Tid)
    | PickInstance(t: Tid, i: Id)
    | PickNone(t: Tid)
    | ReadAddress(t: Tid)
    | ReadLoads(t: Tid)
    | PickRunner(t: Tid, r: Addr)
    | PickNoRunner(t: Tid)
    | Prepare(t: Tid, reply: Option<Id>)
    | StoreInstance(t: Tid)

  const START := State(EMPTY, map[], 0, map[])

  function To(s: State, t: Tid, task: Task): State {
    s.(tasks := s.tasks[t := task])
  }

  /** A fresh request may start with any unused thread; a poll task only for a stored runner. */
  ghost function Next(s: State, p: Step, limits: Thresholds): State {
    if p.Register? then
      if p.t in s.tasks then s else To(s, p.t, Registering(p.addr))
    else if p.StartPoll? then
      if p.t in s.tasks || p.addr !in s.runners then s else To(s, p.t, Polling(p.addr))
    else if p.StartRoute? then
      if p.t in s.tasks then s else To(s, p.t, Entering(p.f))
    else if p.t !in s.tasks then s
    else Advance(s, p, limits, s.tasks[p.t])
  }

  ghost function Advance(s: State, p: Step, limits: Thresholds, task: Task): State
    requires p.t in s.tasks && s.tasks[p.t] == task
  {
    match (p, task)
    case (LookUp(t), Registering(a)) =>
      To(s, t, if a in s.runners then Registered(a, s.runners[a]) else Greeting(a))
    case (Greet(t, answers), Greeting(a)) =>
      // nothing answers at the empty address
      To(s, t, if answers && a != "" then Persisting(a) else Failed)
    case (Persist(t), Persisting(a)) =>
      // insert, or keep the row that a concurrent registration inserted
      if a in s.runners then To(s, t, Registered(a, s.runners[a]))
      else To(s.(runners := s.runners[a := s.nextId], nextId := s.nextId + 1), t, Registered(a, s.nextId))
    case (CacheHeartbeat(t, depths, m), Polling(a)) =>
      To(s.(cache := s.cache.Heartbeat(a, depths, m)), t, Polled)
    case (CacheEviction(t), Polling(a)) =>
      To(s.(cache := s.cache.Evict(a)), t, Polled)
    case (ReadInstances(t), Entering(f)) =>
      To(s, t, Picking(f, s.cache.Instances(f)))
    case (PickInstance(t, i), Picking(f, listed)) =>
      if i in listed && listed[i] < limits.instance then To(s, t, Locating(f, i)) else s
    case (PickNone(t), Picking(f, listed)) =>
      if forall i :: i in listed ==> listed[i] >= limits.instance then To(s, t, Weighing(f)) else s
    case (ReadAddress(t), Locating(f, i)) =>
      To(s, t, if i in s.cache.entries then Served(f, s.cache.entries[i].runner, i, true) else Failed)
    case (ReadLoads(t), Weighing(f)) =>
      To(s, t, Choosing(f, s.cache.Loads()))
    case (PickRunner(t, r), Choosing(f, loads)) =>
      if LeastLoaded(loads, limits.runner, r) then To(s, t, Preparing(f, r)) else s
    case (PickNoRunner(t), Choosing(f, loads)) =>
      if forall r :: r in loads ==> loads[r] >= limits.runner then To(s, t, Failed) else s
    case (Prepare(t, reply), Preparing(f, r)) =>
      To(s, t, if reply.Some? then Storing(f, r, reply.value) else Failed)
    case (StoreInstance(t), Storing(f, r, i)) =>
      To(s.(cache := s.cache.SetInstance(f, i, r, 0)), t, Served(f, r, i, false))
    case _ => s
  }

  ghost function Run(s: State, steps: seq<Step>, limits: Thresholds): State {
    if steps == [] then s
    else Next(Run(s, steps[..|steps| - 1], limits), steps[|steps| - 1], limits)
  }

  // ---- registration

  /** What a task may rely on. */
  ghost predicate TaskOk(s: State, task: Task) {
    match task
    case Registered(a, id) => a in s.runners && s.runners[a] == id
    case Persisting(a) => a != ""
    case Polling(a) => a in s.runners
    case Choosing(_, loads) => loads.Keys <= s.runners.Keys
    case Preparing(_, r) => r in s.runners
    case Storing(_, r, _) => r in s.runners
    case Served(_, r, _, _) => r in s.runners
    case _ => true
  }

  ghost predicate Inv(s: State) {
    Stored(s) && forall t :: t in s.tasks ==> TaskOk(s, s.tasks[t])
  }

  /** The shared state only grows in what tasks rely on. */
  lemma TaskStays(s: State, s': State, task: Task)
    requires TaskOk(s, task)
    requires forall a :: a in s.runners ==> a in s'.runners && s'.runners[a] == s.runners[a]
    ensures TaskOk(s', task)
  {
  }

  /** The shared part of the invariant. */
  ghost predicate Stored(s: State) {
    && s.cache.Ok()
    && s.cache.runners <= s.runners.Keys
    && "" !in s.runners
    && (forall a :: a in s.runners ==> s.runners[a] < s.nextId)
    && (forall a, b :: a in s.runners && b in s.runners && s.runners[a] == s.runners[b] ==> a == b)
  }

  lemma StepKeepsStored(s: State, p: Step, limits: Thresholds, task: Task)
    requires Stored(s) && p.t in s.tasks && s.tasks[p.t] == task && TaskOk(s, task)
    ensures Stored(Advance(s, p, limits, task))
  {
  }

  lemma StepGrows(s: State, p: Step, limits: Thresholds, task: Task)
    requires Stored(s) && p.t in s.tasks && s.tasks[p.t] == task && TaskOk(s, task)
    ensures var s' := Advance(s, p, limits, task);
            && (forall a :: a in s.runners ==> a in s'.runners && s'.runners[a] == s.runners[a])
            && p.t in s'.tasks && TaskOk(s', s'.tasks[p.t])
            && s'.tasks == s.tasks[p.t := s'.tasks[p.t]]
  {
  }

  lemma StepKeepsInv(s: State, p: Step, limits: Thresholds)
    requires Inv(s)
    ensures Inv(Next(s, p, limits))
  {
    var s' := Next(s, p, limits);
    if !p.Register? && !p.StartPoll? && !p.StartRoute? && p.t in s.tasks {
      StepKeepsStored(s, p, limits, s.tasks[p.t]);
      StepGrows(s, p, limits, s.tasks[p.t]);
    }
    forall t | t in s'.tasks
      ensures TaskOk(s', s'.tasks[t])
    {
      if t in s.tasks && s'.tasks[t] == s.tasks[t] {
        TaskStays(s, s', s.tasks[t]);
      }
    }
  }

  /** In every interleaving every cached runner is stored, and ids and addresses determine
      each other. */
  lemma {:induction false} RunKeepsInv(steps: seq<Step>, limits: Thresholds)
    ensures Inv(Run(START, steps, limits))
  {
    if steps == [] {
    } else {
      RunKeepsInv(steps[..|steps| - 1], limits);
      StepKeepsInv(Run(START, steps[..|steps| - 1], limits), steps[|steps| - 1], limits);
    }
  }

  /** Registrations, however they interleave, return the same id exactly when they are for
      the same address. */
  lemma SameAddressSameId(steps: seq<Step>, limits: Thresholds, t: Tid, u: Tid)
    requires var s := Run(START, steps, limits);
             t in s.tasks && u in s.tasks && s.tasks[t].Registered? && s.tasks[u].Registered?
    ensures var s := Run(START, steps, limits);
            s.tasks[t].addr == s.tasks[u].addr <==> s.tasks[t].id == s.tasks[u].id
  {
    RunKeepsInv(steps, limits);
    var s := Run(START, steps, limits);
    assert TaskOk(s, s.tasks[t]) && TaskOk(s, s.tasks[u]);
  }

  // ---- only runners that answered are stored

  lemma RunTo(steps: seq<Step>, limits: Thresholds, n: nat)
    requires n < |steps|
    ensures Run(START, steps[..n + 1], limits) == Next(Run(START, steps[..n], limits), steps[n], limits)
  {
    assert steps[..n + 1][..n] == steps[..n];
  }

  /** The step is a heartbeat that the new address answers. */
  predicate IsAnswer(s: State, p: Step, addr: Addr) {
    p.Greet? && p.answers && p.t in s.tasks && s.tasks[p.t] == Greeting(addr)
  }

  /** The k-th step of the run is one. */
  ghost predicate AnsweredAt(steps: seq<Step>, limits: Thresholds, addr: Addr, k: nat) {
    k < |steps| && IsAnswer(Run(START, steps[..k], limits), steps[k], addr)
  }

  lemma StoreStep(s: State, p: Step, limits: Thresholds, addr: Addr)
    requires addr in Next(s, p, limits).runners && addr !in s.runners
    ensures p.t in s.tasks && s.tasks[p.t] == Persisting(addr)
  {
  }

  lemma PersistingStep(s: State, p: Step, limits: Thresholds, t: Tid, addr: Addr)
    requires t in Next(s, p, limits).tasks && Next(s, p, limits).tasks[t] == Persisting(addr)
    ensures (t in s.tasks && s.tasks[t] == Persisting(addr)) || IsAnswer(s, p, addr)
  {
  }

  lemma {:induction false} PersistingAnswered(steps: seq<Step>, limits: Thresholds, t: Tid, addr: Addr, n: nat) returns (k: nat)
    requires n <= |steps|
    requires var s := Run(START, steps[..n], limits); t in s.tasks && s.tasks[t] == Persisting(addr)
    ensures k < n && AnsweredAt(steps, limits, addr, k)
  {
    var s := Run(START, steps[..n - 1], limits);
    RunTo(steps, limits, n - 1);
    PersistingStep(s, steps[n - 1], limits, t, addr);
    if t in s.tasks && s.tasks[t] == Persisting(addr) {
      k := PersistingAnswered(steps, limits, t, addr, n - 1);
    } else {
      k := n - 1;
    }
  }

  /** A stored address is either an old one or that of a registration about to store it. */
  lemma StoredFrom(steps: seq<Step>, limits: Thresholds, addr: Addr, n: nat)
    requires 0 < n <= |steps| && addr in Run(START, steps[..n], limits).runners
    ensures var s, t := Run(START, steps[..n - 1], limits), steps[n - 1].t;
            addr in s.runners || (t in s.tasks && s.tasks[t] == Persisting(addr))
  {
    RunTo(steps, limits, n - 1);
    var s := Run(START, steps[..n - 1], limits);
    if addr !in s.runners {
      StoreStep(s, steps[n - 1], limits, addr);
    }
  }

  /** Every stored address answered a heartbeat of its registration earlier in the run. */
  lemma {:induction false} StoredOnceAnswered(steps: seq<Step>, limits: Thresholds, addr: Addr, n: nat) returns (k: nat)
    requires n <= |steps| && addr in Run(START, steps[..n], limits).runners
    ensures k < n && AnsweredAt(steps, limits, addr, k)
  {
    StoredFrom(steps, limits, addr, n);
    if addr in Run(START, steps[..n - 1], limits).runners {
      k := StoredOnceAnswered(steps, limits, addr, n - 1);
    } else {
      k := PersistingAnswered(steps, limits, steps[n - 1].t, addr, n - 1);
    }
  }

  /** A registration whose heartbeat is not answered fails, and stores nothing. */
  lemma UnansweredFails(s: State, t: Tid, addr: Addr, limits: Thresholds)
    requires t in s.tasks && s.tasks[t] == Greeting(addr)
    ensures Next(s, Greet(t, false), limits) == s.(tasks := s.tasks[t := Failed])
  {
  }

  /** A known address keeps its id: at the lookup, and at the insert if another registration
      came first. */
  lemma KnownKeepsId(s: State, t: Tid, addr: Addr, limits: Thresholds)
    requires t in s.tasks && addr in s.runners
    ensures s.tasks[t] == Registering(addr) ==> Next(s, LookUp(t), limits) == To(s, t, Registered(addr, s.runners[addr]))
    ensures s.tasks[t] == Persisting(addr) ==> Next(s, Persist(t), limits) == To(s, t, Registered(addr, s.runners[addr]))
  {
  }

  /** From an unknown address to a stored one: a registration that is answered takes three
      steps and returns the stored id. */
  lemma RegistrationRun(s: State, t: Tid, addr: Addr, limits: Thresholds)
    requires t in s.tasks && s.tasks[t] == Registering(addr) && addr !in s.runners && addr != ""
    ensures var e := Next(Next(Next(s, LookUp(t), limits), Greet(t, true), limits), Persist(t), limits);
            && e.runners == s.runners[addr := s.nextId] && e.cache == s.cache && e.nextId == s.nextId + 1
            && t in e.tasks && e.tasks[t] == Registered(addr, s.nextId)
  {
  }

  // ---- every request works on what it was asked for

  function Asked(task: Task): set<string> {
    match task
    case Registering(a) => {a}
    case Greeting(a) => {a}
    case Persisting(a) => {a}
    case Registered(a, _) => {a}
    case Polling(a) => {a}
    case Entering(f) => {f}
    case Picking(f, _) => {f}
    case Locating(f, _) => {f}
    case Weighing(f) => {f}
    case Choosing(f, _) => {f}
    case Preparing(f, _) => {f}
    case Storing(f, _, _) => {f}
    case Served(f, _, _, _) => {f}
    case Polled => {}
    case Failed => {}
  }

  predicate Registers(task: Task) {
    task.Registering? || task.Greeting? || task.Persisting? || task.Registered?
  }

  /** The step that starts the task, given what the task is about. */
  function StartOf(t: Tid, task: Task, x: string): Step {
    if Registers(task) then Register(t, x) else if task.Polling? then StartPoll(t, x) else StartRoute(t, x)
  }

  lemma AskedStep(s: State, p: Step, limits: Thresholds, t: Tid, x: string)
    requires t in Next(s, p, limits).tasks && x in Asked(Next(s, p, limits).tasks[t])
    ensures var task' := Next(s, p, limits).tasks[t];
            if t in s.tasks then x in Asked(s.tasks[t]) && StartOf(t, s.tasks[t], x) == StartOf(t, task', x)
            else p == StartOf(t, task', x)
  {
    if t in s.tasks && p.t != t {
      OtherTaskStays(s, p, limits, t);
    }
  }

  /** A registration is for the address, a poll task for the runner and a route for the function
      that it was started with. */
  lemma {:induction false} AsAsked(steps: seq<Step>, limits: Thresholds, n: nat, t: Tid, x: string)
    requires n <= |steps|
    requires var s := Run(START, steps[..n], limits); t in s.tasks && x in Asked(s.tasks[t])
    ensures StartOf(t, Run(START, steps[..n], limits).tasks[t], x) in steps[..n]
  {
    var s := Run(START, steps[..n - 1], limits);
    RunTo(steps, limits, n - 1);
    AskedStep(s, steps[n - 1], limits, t, x);
    assert steps[..n] == steps[..n - 1] + [steps[n - 1]];
    if t in s.tasks {
      AsAsked(steps, limits, n - 1, t, x);
    }
  }

  // ---- the cache is that of the updates made

  /** The update of the cache that the step makes, if any. */
  function Made(s: State, p: Step): seq<Op> {
    if p.t !in s.tasks then []
    else if p.CacheHeartbeat? && s.tasks[p.t].Polling? then [Beat(s.tasks[p.t].addr, p.depths, p.m)]
    else if p.CacheEviction? && s.tasks[p.t].Polling? then [Drop(s.tasks[p.t].addr)]
    else if p.StoreInstance? && s.tasks[p.t].Storing? then [Set(s.tasks[p.t].f, s.tasks[p.t].i, s.tasks[p.t].r, 0)]
    else []
  }

  /** The updates that a run makes, in order. */
  ghost function Updates(steps: seq<Step>, limits: Thresholds): seq<Op> {
    if steps == [] then []
    else
      var before := steps[..|steps| - 1];
      Updates(before, limits) + Made(Run(START, before, limits), steps[|steps| - 1])
  }

  lemma MadeStep(s: State, p: Step, limits: Thresholds)
    ensures Next(s, p, limits).cache == ApplyAll(s.cache, Made(s, p))
  {
    var ops := Made(s, p);
    assert |ops| <= 1;
    if ops != [] {
      assert ops[..0] == [] && ApplyAll(s.cache, ops) == Apply(s.cache, ops[0]);
    }
  }

  /** However requests interleave, the cache is exactly what the poll answers, evictions and
      prepared instances make of the empty one, in the order in which they come. */
  lemma {:induction false} CacheIsUpdated(steps: seq<Step>, limits: Thresholds)
    ensures Run(START, steps, limits).cache == ApplyAll(EMPTY, Updates(steps, limits))
  {
    if steps == [] {
    } else {
      var before, p := steps[..|steps| - 1], steps[|steps| - 1];
      CacheIsUpdated(before, limits);
      MadeStep(Run(START, before, limits), p, limits);
      CacheLaws.ApplyAllConcat(EMPTY, Updates(before, limits), Made(Run(START, before, limits), p));
    }
  }

  // ---- eviction

  /** The step puts the runner back: its heartbeat is cached or an instance is set on it. */
  predicate Revives(s: State, p: Step, r: Addr) {
    && p.t in s.tasks
    && ((p.CacheHeartbeat? && s.tasks[p.t].Polling? && s.tasks[p.t].addr == r)
        || (p.StoreInstance? && s.tasks[p.t].Storing? && s.tasks[p.t].r == r))
  }

  /** The task neither holds nor has answered with the runner. */
  predicate Avoids(task: Task, r: Addr) {
    match task
    case Choosing(_, loads) => r !in loads
    case Preparing(_, a) => a != r
    case Storing(_, a, _) => a != r
    case Served(_, a, _, _) => a != r
    case _ => true
  }

  /** The runner is out of the cache, and the tasks that started since then avoid it. */
  ghost predicate Out(s: State, r: Addr, earlier: set<Tid>) {
    && s.cache.Ok()
    && r !in s.cache.runners
    && forall t :: t in s.tasks && t !in earlier ==> Avoids(s.tasks[t], r)
  }

  lemma StepKeepsOut(s: State, p: Step, limits: Thresholds, r: Addr, earlier: set<Tid>)
    requires Out(s, r, earlier) && !Revives(s, p, r)
    ensures Out(Next(s, p, limits), r, earlier)
  {
  }

  /** After an eviction no route that starts later answers with the runner, warm or as
      prepare target, until a heartbeat or a SetInstance names it again, whatever else
      happens between the reads of the route. */
  lemma {:induction false} EvictedStaysOut(s: State, steps: seq<Step>, limits: Thresholds, r: Addr)
    requires s.cache.Ok() && r !in s.cache.runners
    requires forall k :: 0 <= k < |steps| ==> !Revives(Run(s, steps[..k], limits), steps[k], r)
    ensures Out(Run(s, steps, limits), r, s.tasks.Keys)
  {
    if steps == [] {
    } else {
      var n := |steps| - 1;
      var before := steps[..n];
      forall k | 0 <= k < |before|
        ensures !Revives(Run(s, before[..k], limits), before[k], r)
      {
        assert before[..k] == steps[..k];
      }
      EvictedStaysOut(s, before, limits, r);
      assert !Revives(Run(s, before, limits), steps[n], r);
      StepKeepsOut(Run(s, before, limits), steps[n], limits, r, s.tasks.Keys);
    }
  }

  /** The eviction of a runner that failed its poll takes it out, and it stays out of every
      later route as said above. */
  lemma AfterEviction(s: State, t: Tid, steps: seq<Step>, limits: Thresholds)
    requires s.cache.Ok() && t in s.tasks && s.tasks[t].Polling?
    requires var evicted := Next(s, CacheEviction(t), limits);
             forall k :: 0 <= k < |steps| ==> !Revives(Run(evicted, steps[..k], limits), steps[k], s.tasks[t].addr)
    ensures Out(Run(Next(s, CacheEviction(t), limits), steps, limits), s.tasks[t].addr, s.tasks.Keys)
  {
    var evicted := Next(s, CacheEviction(t), limits);
    assert evicted.tasks.Keys == s.tasks.Keys;
    EvictedStaysOut(evicted, steps, limits, s.tasks[t].addr);
  }

  // ---- routes

  /** What a route for f may have found so far, if the cache has been c all along. */
  ghost predicate RouteOk(c: Cache, limits: Thresholds, f: FuncId, task: Task) {
    match task
    case Entering(g) => g == f
    case Picking(g, listed) => g == f && listed == c.Instances(f)
    case Locating(g, i) => g == f && Healthy(c, f, limits.instance, i)
    case Weighing(g) => g == f && forall i :: !Healthy(c, f, limits.instance, i)
    case Choosing(g, loads) => g == f && (forall i :: !Healthy(c, f, limits.instance, i)) && loads == c.Loads()
    case Preparing(g, r) => g == f && Answers(c, f, limits, PrepareOn(f, r))
    case Served(g, r, i, warm) => g == f && warm && Answers(c, f, limits, Warm(NaiveRouting.Routing(r, i)))
    case Failed => Answers(c, f, limits, NoRunner)
    case _ => false
  }

  lemma OtherTaskStays(s: State, p: Step, limits: Thresholds, t: Tid)
    requires t in s.tasks && p.t != t
    ensures t in Next(s, p, limits).tasks && Next(s, p, limits).tasks[t] == s.tasks[t]
  {
  }

  lemma OwnRouteStep(s: State, p: Step, limits: Thresholds, f: FuncId)
    requires p.t in s.tasks && RouteOk(s.cache, limits, f, s.tasks[p.t]) && !p.Prepare?
    ensures p.t in Next(s, p, limits).tasks && RouteOk(s.cache, limits, f, Next(s, p, limits).tasks[p.t])
  {
  }

  lemma RouteStep(s: State, p: Step, limits: Thresholds, t: Tid, f: FuncId)
    requires t in s.tasks && RouteOk(s.cache, limits, f, s.tasks[t])
    requires !(p.Prepare? && p.t == t)
    ensures t in Next(s, p, limits).tasks && RouteOk(s.cache, limits, f, Next(s, p, limits).tasks[t])
  {
    if p.t != t {
      OtherTaskStays(s, p, limits, t);
    } else {
      OwnRouteStep(s, p, limits, f);
    }
  }

  // ---- where an answer comes from

  ghost predicate NoneHealthy(c: Cache, f: FuncId, limits: Thresholds) {
    forall i :: !Healthy(c, f, limits.instance, i)
  }

  /** What a route for f is or answers, given the cache at its first read and the cache at its
      second one. */
  ghost predicate ReadFrom(first: Cache, second: Cache, limits: Thresholds, f: FuncId, task: Task) {
    match task
    case Entering(g) => g == f
    case Picking(g, listed) => g == f && listed == first.Instances(f)
    case Locating(g, i) => g == f && Healthy(first, f, limits.instance, i)
    case Weighing(g) => g == f && NoneHealthy(first, f, limits)
    case Choosing(g, loads) => g == f && NoneHealthy(first, f, limits) && loads == second.Loads()
    case Preparing(g, r) => g == f && Started(first, second, limits, f, r)
    case Storing(g, r, _) => g == f && Started(first, second, limits, f, r)
    case Served(g, r, i, warm) =>
      g == f && if warm then Found(first, second, limits, f, r, i) else Started(first, second, limits, f, r)
    case Failed => Lost(first, second, limits, f)
    case _ => false
  }

  /** A warm answer. */
  ghost predicate Found(first: Cache, second: Cache, limits: Thresholds, f: FuncId, r: Addr, i: Id) {
    Healthy(first, f, limits.instance, i) && i in second.entries && second.entries[i].runner == r
  }

  /** A cold start. */
  ghost predicate Started(first: Cache, second: Cache, limits: Thresholds, f: FuncId, r: Addr) {
    NoneHealthy(first, f, limits) && LeastLoaded(second.Loads(), limits.runner, r)
  }

  /** A picked instance has gone, no runner was free, or the runner failed to prepare. */
  ghost predicate Lost(first: Cache, second: Cache, limits: Thresholds, f: FuncId) {
    || (exists i :: Healthy(first, f, limits.instance, i) && i !in second.entries)
    || (NoneHealthy(first, f, limits) && forall r :: r in second.Loads() ==> second.Loads()[r] >= limits.runner)
    || (exists r :: Started(first, second, limits, f, r))
  }

  ghost function CacheAt(s: State, steps: seq<Step>, limits: Thresholds, n: nat): Cache
    requires n <= |steps|
  {
    Run(s, steps[..n], limits).cache
  }

  predicate ReadsFirst(s: State, p: Step, t: Tid) {
    p.t == t && p.ReadInstances? && t in s.tasks && s.tasks[t].Entering?
  }

  predicate ReadsSecond(s: State, p: Step, t: Tid) {
    && p.t == t && t in s.tasks
    && ((p.ReadAddress? && s.tasks[t].Locating?) || (p.ReadLoads? && s.tasks[t].Weighing?))
  }

  lemma ReadStep(s: State, p: Step, limits: Thresholds, t: Tid, f: FuncId, first: Cache, second: Cache)
    requires t in s.tasks && ReadFrom(first, second, limits, f, s.tasks[t])
    ensures t in Next(s, p, limits).tasks
    ensures var first' := if ReadsFirst(s, p, t) then s.cache else first;
            var second' := if ReadsFirst(s, p, t) || ReadsSecond(s, p, t) then s.cache else second;
            ReadFrom(first', second', limits, f, Next(s, p, limits).tasks[t])
  {
    if p.t == t && p.Prepare? && s.tasks[t].Preparing? {
      assert Started(first, second, limits, f, s.tasks[t].r);
    } else if ReadsSecond(s, p, t) && s.tasks[t].Locating? {
      assert Healthy(first, f, limits.instance, s.tasks[t].i);
    }
  }

  /** Whatever interleaves with a route, a warm answer's instance was under its threshold in
      the cache of the first read and belonged to the answered runner in that of the second; a
      cold start is on a runner that was least loaded in the cache of the second read, after a
      first one that listed no instance under its threshold. Both reads lie within the route,
      the first before the second. */
  lemma {:induction false} AnswerIsReadFrom(s: State, steps: seq<Step>, limits: Thresholds, t: Tid, f: FuncId, n: nat)
    returns (j: nat, k: nat)
    requires t in s.tasks && s.tasks[t] == Entering(f) && n <= |steps|
    ensures j <= k <= n && t in Run(s, steps[..n], limits).tasks
    ensures ReadFrom(CacheAt(s, steps, limits, j), CacheAt(s, steps, limits, k), limits, f,
                     Run(s, steps[..n], limits).tasks[t])
  {
    if n == 0 {
      j, k := 0, 0;
    } else {
      var m := n - 1;
      j, k := AnswerIsReadFrom(s, steps, limits, t, f, m);
      var now, p := Run(s, steps[..m], limits), steps[m];
      assert steps[..n][..m] == steps[..m];
      ReadStep(now, p, limits, t, f, CacheAt(s, steps, limits, j), CacheAt(s, steps, limits, k));
      if ReadsFirst(now, p, t) {
        j, k := m, m;
      } else if ReadsSecond(now, p, t) {
        k := m;
      }
    }
  }

  /** The k-th step is the runner's reply to the prepare call of the route. */
  ghost predicate PreparedAt(steps: seq<Step>, limits: Thresholds, t: Tid, f: FuncId, r: Addr, i: Id, k: nat) {
    && k < |steps| && steps[k] == Prepare(t, Some(i))
    && t in Run(START, steps[..k], limits).tasks && Run(START, steps[..k], limits).tasks[t] == Preparing(f, r)
  }

  predicate StartedWith(task: Task, f: FuncId, r: Addr, i: Id) {
    task == Storing(f, r, i) || task == Served(f, r, i, false)
  }

  lemma ColdStep(s: State, p: Step, limits: Thresholds, t: Tid, f: FuncId, r: Addr, i: Id)
    requires t in Next(s, p, limits).tasks && StartedWith(Next(s, p, limits).tasks[t], f, r, i)
    ensures t in s.tasks
    ensures StartedWith(s.tasks[t], f, r, i) || (s.tasks[t] == Preparing(f, r) && p == Prepare(t, Some(i)))
  {
    if p.t != t && t in s.tasks {
      OtherTaskStays(s, p, limits, t);
    }
  }

  /** A cold start answers with the instance that the chosen runner prepared for the route. */
  lemma {:induction false} ColdWasPrepared(steps: seq<Step>, limits: Thresholds, t: Tid, f: FuncId, r: Addr, i: Id, n: nat)
    returns (k: nat)
    requires n <= |steps|
    requires var s := Run(START, steps[..n], limits); t in s.tasks && StartedWith(s.tasks[t], f, r, i)
    ensures k < n && PreparedAt(steps, limits, t, f, r, i, k)
  {
    var s := Run(START, steps[..n - 1], limits);
    RunTo(steps, limits, n - 1);
    ColdStep(s, steps[n - 1], limits, t, f, r, i);
    if StartedWith(s.tasks[t], f, r, i) {
      k := ColdWasPrepared(steps, limits, t, f, r, i, n - 1);
    } else {
      k := n - 1;
    }
  }

  /** A route fails when every runner is overloaded, when the prepare call fails, and when the
      instance it picked has gone. */
  lemma RouteFails(s: State, t: Tid, limits: Thresholds)
    requires t in s.tasks
    ensures s.tasks[t].Choosing? && (forall r :: r in s.tasks[t].loads ==> s.tasks[t].loads[r] >= limits.runner) ==>
              Next(s, PickNoRunner(t), limits) == To(s, t, Failed)
    ensures s.tasks[t].Preparing? ==> Next(s, Prepare(t, None), limits) == To(s, t, Failed)
    ensures s.tasks[t].Locating? && s.tasks[t].i !in s.cache.entries ==> Next(s, ReadAddress(t), limits) == To(s, t, Failed)
  {
  }

  /** A route with an instance under its threshold takes three steps and answers with it. */
  lemma WarmRun(s: State, t: Tid, f: FuncId, i: Id, limits: Thresholds)
    requires t in s.tasks && s.tasks[t] == Entering(f) && Healthy(s.cache, f, limits.instance, i)
    ensures var e := Next(Next(Next(s, ReadInstances(t), limits), PickInstance(t, i), limits), ReadAddress(t), limits);
            e == s.(tasks := s.tasks[t := Served(f, s.cache.entries[i].runner, i, true)])
  {
  }

  lemma ColdChoice(s: State, t: Tid, f: FuncId, limits: Thresholds)
    requires t in s.tasks && s.tasks[t] == Entering(f) && NoneHealthy(s.cache, f, limits)
    ensures Next(Next(Next(s, ReadInstances(t), limits), PickNone(t), limits), ReadLoads(t), limits) ==
            To(s, t, Choosing(f, s.cache.Loads()))
  {
    assert Next(s, ReadInstances(t), limits) == To(s, t, Picking(f, s.cache.Instances(f)));
    PicksNone(s, t, f, limits);
  }

  lemma PicksNone(s: State, t: Tid, f: FuncId, limits: Thresholds)
    requires NoneHealthy(s.cache, f, limits)
    ensures Next(To(s, t, Picking(f, s.cache.Instances(f))), PickNone(t), limits) == To(s, t, Weighing(f))
  {
    forall j | j in s.cache.Instances(f)
      ensures s.cache.Instances(f)[j] >= limits.instance
    {
      assert !Healthy(s.cache, f, limits.instance, j);
    }
  }

  lemma ColdPrepare(s: State, t: Tid, f: FuncId, loads: map<Addr, int>, r: Addr, i: Id, limits: Thresholds)
    requires LeastLoaded(loads, limits.runner, r)
    ensures Next(Next(To(s, t, Choosing(f, loads)), PickRunner(t, r), limits), Prepare(t, Some(i)), limits) ==
            To(s, t, Storing(f, r, i))
  {
    assert Next(To(s, t, Choosing(f, loads)), PickRunner(t, r), limits) == To(s, t, Preparing(f, r));
  }

  lemma ColdStart(s: State, t: Tid, f: FuncId, loads: map<Addr, int>, r: Addr, i: Id, limits: Thresholds)
    requires LeastLoaded(loads, limits.runner, r)
    ensures var prepared := Next(Next(To(s, t, Choosing(f, loads)), PickRunner(t, r), limits), Prepare(t, Some(i)), limits);
            Next(prepared, StoreInstance(t), limits) ==
            s.(cache := s.cache.SetInstance(f, i, r, 0), tasks := s.tasks[t := Served(f, r, i, false)])
  {
    ColdPrepare(s, t, f, loads, r, i, limits);
  }

  /** A route without one orders a start on a least loaded runner and stores what it prepares. */
  lemma ColdRun(s: State, t: Tid, f: FuncId, r: Addr, i: Id, limits: Thresholds)
    requires t in s.tasks && s.tasks[t] == Entering(f) && NoneHealthy(s.cache, f, limits)
    requires LeastLoaded(s.cache.Loads(), limits.runner, r)
    ensures var choosing := Next(Next(Next(s, ReadInstances(t), limits), PickNone(t), limits), ReadLoads(t), limits);
            var prepared := Next(Next(choosing, PickRunner(t, r), limits), Prepare(t, Some(i)), limits);
            Next(prepared, StoreInstance(t), limits) ==
            s.(cache := s.cache.SetInstance(f, i, r, 0), tasks := s.tasks[t := Served(f, r, i, false)])
  {
    ColdChoice(s, t, f, limits);
    ColdStart(s, t, f, s.cache.Loads(), r, i, limits);
  }

  /** The three reads of a route are taken at different moments, but as long as the cache
      does not change between them, whatever else runs, the route ends in an answer that is
      right for that cache. */
  lemma {:induction false} RouteOnSteadyCache(s: State, steps: seq<Step>, limits: Thresholds, t: Tid, f: FuncId)
    requires t in s.tasks && s.tasks[t] == Entering(f)
    requires forall k :: 0 <= k <= |steps| ==> Run(s, steps[..k], limits).cache == s.cache
    requires forall k :: 0 <= k < |steps| ==> !(steps[k].Prepare? && steps[k].t == t)
    ensures t in Run(s, steps, limits).tasks && RouteOk(s.cache, limits, f, Run(s, steps, limits).tasks[t])
  {
    if steps == [] {
    } else {
      var n := |steps| - 1;
      var before := steps[..n];
      forall k | 0 <= k <= n
        ensures Run(s, before[..k], limits).cache == s.cache
      {
        assert before[..k] == steps[..k];
      }
      RouteOnSteadyCache(s, before, limits, t, f);
      assert Run(s, before, limits).cache == s.cache;
      RouteStep(Run(s, before, limits), steps[n], limits, t, f);
    }
  }
}
