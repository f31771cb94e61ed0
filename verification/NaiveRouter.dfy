/** The naive router (pkg/routing/naive.go): a warm instance under its threshold, else
    the least loaded runner under its threshold, else no runner. */
module NaiveRouting {
  import opened Prelude
  import opened CacheSpec
  import opened InMemoryCaching

  /** Go's int on a 64-bit platform. */
  const MAX_INT := 0x7fff_ffff_ffff_ffff
  type GoInt = n: int | -0x8000_0000_0000_0000 <= n <= MAX_INT

  datatype Routing = Routing(runner: Addr, instance: Id)

  datatype Outcome =
    | Warm(routing: Routing)
    | PrepareOn(f: FuncId, runner: Addr)
    | NoRunner
    | LookupFailed(instance: Id)

  datatype Thresholds = Thresholds(instance: GoInt, runner: GoInt)

  // ---- what a route may answer on one cache state

  predicate Healthy(c: Cache, f: FuncId, limit: int, i: Id) {
    i in c.Instances(f) && c.Instances(f)[i] < limit
  }

  ghost predicate LeastLoaded(loads: map<Addr, int>, limit: int, r: Addr) {
    r in loads && loads[r] < limit && forall a :: a in loads ==> loads[r] <= loads[a]
  }

  /** The answers that are right for a cache. */
  ghost predicate Answers(c: Cache, f: FuncId, t: Thresholds, out: Outcome) {
    match out
    case Warm(w) => Healthy(c, f, t.instance, w.instance) && c.entries[w.instance].runner == w.runner
    case PrepareOn(g, r) =>
      g == f && (forall i :: !Healthy(c, f, t.instance, i)) && LeastLoaded(c.Loads(), t.runner, r)
    case NoRunner =>
      (forall i :: !Healthy(c, f, t.instance, i)) && (forall r :: r in c.Loads() ==> c.Loads()[r] >= t.runner)
    case LookupFailed(_) => false
  }

  /** Exactly one kind of answer is right for a cache. */
  lemma AnswersExclusive(c: Cache, f: FuncId, t: Thresholds, a: Outcome, b: Outcome)
    requires Answers(c, f, t, a) && Answers(c, f, t, b)
    ensures (a.Warm? <==> b.Warm?) && (a.NoRunner? <==> b.NoRunner?)
    ensures a.PrepareOn? ==> b.PrepareOn? && a.runner in c.Loads() && b.runner in c.Loads() &&
                             c.Loads()[a.runner] == c.Loads()[b.runner]
  {
    if a.Warm? {
      assert Healthy(c, f, t.instance, a.routing.instance);
    }
    if b.Warm? {
      assert Healthy(c, f, t.instance, b.routing.instance);
    }
  }

  // ---- the loops

  method PickHealthyInstance(instances: map<Id, int>, limit: GoInt, cache: InMemoryCache)
    returns (result: Option<Outcome>)
    requires cache.Valid()
    ensures result.None? <==> forall i :: i in instances ==> instances[i] >= limit
    ensures result.Some? ==>
              exists i :: i in instances && instances[i] < limit &&
                result.value == if i in cache.model.entries then Warm(Routing(cache.model.entries[i].runner, i))
                                else LookupFailed(i)
  {
    var todo := instances.Keys;
    while todo != {}
      invariant todo <= instances.Keys
      invariant forall i :: i in instances.Keys - todo ==> instances[i] >= limit
      decreases todo
    {
      var i :| i in todo;
      if instances[i] < limit {
        var addr := cache.RunnerAddressOfInstance(i);
        return Some(if addr.Some? then Warm(Routing(addr.value, i)) else LookupFailed(i));
      }
      todo := todo - {i};
    }
    return None;
  }

  method PickLeastLoadedRunner(loads: map<Addr, int>, limit: GoInt) returns (least: Addr)
    ensures least != "" ==> LeastLoaded(loads, limit, least)
    ensures least == "" ==> (forall r :: r in loads ==> loads[r] >= limit) || LeastLoaded(loads, limit, "")
  {
    least := "";
    var min, todo := MAX_INT, loads.Keys;
    ghost var found: Option<Addr> := None;
    while todo != {}
      invariant todo <= loads.Keys
      invariant found.None? ==> least == "" && min == MAX_INT
      invariant found.Some? ==> found.value == least && least in loads && loads[least] == min < limit
      invariant forall r :: r in loads.Keys - todo ==> loads[r] >= limit || (found.Some? && min <= loads[r])
      decreases todo
    {
      var r :| r in todo;
      todo := todo - {r};
      if loads[r] >= limit {
        continue;
      }
      if loads[r] < min {
        least, min, found := r, loads[r], Some(r);
      }
    }
  }

  /** Route when nothing else touches the cache: the answer is right, and the address of a
      listed instance is always found. Only a least loaded runner with an empty name is
      taken for none. */
  method Route(cache: InMemoryCache, f: FuncId, t: Thresholds) returns (out: Outcome)
    requires cache.Valid()
    ensures Answers(cache.model, f, t, out) || (out == NoRunner && Answers(cache.model, f, t, PrepareOn(f, "")))
    ensures "" !in cache.model.runners ==> Answers(cache.model, f, t, out)
  {
    var instances := cache.FunctionIdInstances(f);
    var warm := PickHealthyInstance(instances, t.instance, cache);
    if warm.Some? {
      return warm.value;
    }
    var loads := cache.RequestsPerRunner();
    var runner := PickLeastLoadedRunner(loads, t.runner);
    if runner == "" {
      return NoRunner;
    }
    return PrepareOn(f, runner);
  }

  // ---- what the thresholds decide

  /** Right after an instance is set with an empty queue, a positive instance threshold
      makes every route for its function warm, and the instance itself is a candidate. */
  lemma WarmAfterSet(c: Cache, f: FuncId, i: Id, r: Addr, t: Thresholds, out: Outcome)
    requires t.instance > 0 && Answers(c.SetInstance(f, i, r, 0), f, t, out)
    ensures out.Warm?
    ensures Answers(c.SetInstance(f, i, r, 0), f, t, Warm(Routing(r, i)))
  {
    assert Healthy(c.SetInstance(f, i, r, 0), f, t.instance, i);
  }
}
