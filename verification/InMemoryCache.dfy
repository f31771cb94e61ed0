/** The in-memory routing cache (pkg/caching/in_memory.go): seven redundant tables,
    updated in place, that always represent one abstract cache. Go's iteration order is
    left open everywhere: a loop takes any remaining key. */
module InMemoryCaching {
  import opened Prelude
  import opened CacheSpec
  import opened CacheTables
  import CacheLaws

  class InMemoryCache {
    var funcInstances: map<FuncId, map<Id, int>>
    var instanceFunction: map<Id, FuncId>
    var instanceRunner: map<Id, Addr>
    var instanceQueue: map<Id, int>
    var runnerInstances: map<Addr, set<Id>>
    var runnerRequests: map<Addr, int>
    var runnerStats: map<Addr, Metrics>

    /** The abstract cache that the tables represent. */
    ghost var model: Cache

    ghost function State(): Tables
      reads this
    {
      Tables(funcInstances, instanceFunction, instanceRunner, instanceQueue,
                    runnerInstances, runnerRequests, runnerStats)
    }

    ghost predicate Valid()
      reads this
    {
      Represents(State(), model, {})
    }

    constructor ()
      ensures Valid() && model == EMPTY
    {
      funcInstances, instanceFunction, instanceRunner, instanceQueue := map[], map[], map[], map[];
      runnerInstances, runnerRequests, runnerStats := map[], map[], map[];
      model := EMPTY;
    }

    // ---- readers

    method FunctionIdInstances(f: FuncId) returns (result: map<Id, int>)
      requires Valid()
      ensures result == model.Instances(f)
    {
      assert FunctionAgrees(funcInstances, model, f);
      if f !in funcInstances {
        return map[];
      }
      result := funcInstances[f];
    }

    method RunnerAddressOfInstance(i: Id) returns (addr: Option<Addr>)
      requires Valid()
      ensures addr == if i in model.entries then Some(model.entries[i].runner) else None
    {
      assert InstanceAgrees(State(), model, i);
      addr := if i in instanceRunner then Some(instanceRunner[i]) else None;
    }

    method RequestsPerRunner() returns (result: map<Addr, int>)
      requires Valid()
      ensures result == model.Loads()
    {
      result := runnerRequests;
      forall r
        ensures r in result <==> r in model.runners
        ensures r in result ==> result[r] == model.Load(r)
      {
        assert r in {} || TotalAgrees(runnerRequests, model, r);
        assert RunnerAgrees(runnerInstances, model, r);
      }
    }

    method StatsPerRunner() returns (result: map<Addr, Metrics>)
      requires Valid()
      ensures result == model.stats
    {
      result := runnerStats;
    }

    method CachedInstancesCount() returns (n: nat)
      requires Valid()
      ensures n == |model.entries|
    {
      n := |instanceRunner|;
      forall i
        ensures i in instanceRunner <==> i in model.entries
      {
        assert InstanceAgrees(State(), model, i);
      }
      assert instanceRunner.Keys == model.entries.Keys;
    }

    // ---- helpers that run under the lock

    method RemoveFunctionInstance(f: FuncId, i: Id)
      modifies `funcInstances
      ensures funcInstances == Unlist(old(funcInstances), f, i)
    {
      if f !in funcInstances {
        return;
      }
      funcInstances := funcInstances[f := funcInstances[f] - {i}];
      if |funcInstances[f]| == 0 {
        funcInstances := funcInstances - {f};
      }
    }

    method ListInstance(f: FuncId, i: Id, q: int)
      modifies `funcInstances
      ensures funcInstances == List(old(funcInstances), f, i, q)
    {
      if f !in funcInstances {
        funcInstances := funcInstances[f := map[]];
      }
      funcInstances := funcInstances[f := funcInstances[f][i := q]];
    }

    method RemoveRunnerInstance(r: Addr, i: Id)
      modifies `runnerInstances
      ensures runnerInstances == Detach(old(runnerInstances), r, i)
    {
      if r !in runnerInstances {
        return;
      }
      runnerInstances := runnerInstances[r := runnerInstances[r] - {i}];
    }

    method AddRunnerInstance(r: Addr, i: Id)
      modifies `runnerInstances
      ensures runnerInstances == Attach(old(runnerInstances), r, i)
    {
      if r !in runnerInstances {
        runnerInstances := runnerInstances[r := {}];
      }
      runnerInstances := runnerInstances[r := runnerInstances[r] + {i}];
    }

    method RecomputeRunnerRequests(r: Addr)
      modifies `runnerRequests
      ensures runnerRequests == Recomputed(runnerInstances, instanceQueue, old(runnerRequests), r)
    {
      if r !in runnerInstances {
        runnerRequests := runnerRequests - {r};
        return;
      }
      var total, todo := 0, runnerInstances[r];
      while todo != {}
        invariant runnerRequests == old(runnerRequests)
        invariant total + Sum(todo, instanceQueue) == Sum(runnerInstances[r], instanceQueue)
        decreases todo
      {
        var i :| i in todo;
        SumTakeOut(todo, instanceQueue, i);
        total := total + Get(instanceQueue, i, 0);
        todo := todo - {i};
      }
      runnerRequests := runnerRequests[r := total];
    }

    method RecomputeBoth(previous: Addr, r: Addr)
      modifies `runnerRequests
      ensures runnerRequests == Resettled(runnerInstances, instanceQueue, old(runnerRequests), previous, r)
    {
      RecomputeRunnerRequests(r);
      if previous != "" && previous != r {
        RecomputeRunnerRequests(previous);
      }
    }

    method RemoveInstance(i: Id)
      modifies this
      ensures State() == Removed(old(State()), i) && model == old(model)
    {
      var hasFunc, hasRunner := i in instanceFunction, i in instanceRunner;
      if hasFunc {
        RemoveFunctionInstance(instanceFunction[i], i);
      }
      if hasRunner {
        RemoveRunnerInstance(instanceRunner[i], i);
        RecomputeRunnerRequests(instanceRunner[i]);
      }
      instanceFunction := instanceFunction - {i};
      instanceRunner := instanceRunner - {i};
      instanceQueue := instanceQueue - {i};
    }

    /** The same with what it means. */
    method ForgetInstance(i: Id, ghost except: set<Addr>)
      modifies this
      ensures runnerInstances == Removed(old(State()), i).runnerInstances && model == Without(old(model), i)
      ensures Represents(old(State()), old(model), except) ==> Represents(State(), model, except)
    {
      if Represents(State(), model, except) {
        RemovedRepresents(State(), model, i, except);
      }
      RemoveInstance(i);
      model := Without(model, i);
    }

    // ---- updates

    /** The instance leaves another function's list and another runner's set. */
    method LeavePrevious(previousFunc: FuncId, f: FuncId, previousRunner: Addr, r: Addr, i: Id)
      modifies `funcInstances, `runnerInstances
      ensures funcInstances == UnlistOther(old(funcInstances), previousFunc, f, i)
      ensures runnerInstances == DetachOther(old(runnerInstances), previousRunner, r, i)
    {
      if previousFunc != "" && previousFunc != f {
        RemoveFunctionInstance(previousFunc, i);
      }
      if previousRunner != "" && previousRunner != r {
        RemoveRunnerInstance(previousRunner, i);
      }
    }

    /** The table edits of SetInstance. */
    method PlaceInstance(f: FuncId, i: Id, r: Addr, q: int) returns (previousRunner: Addr)
      modifies this
      ensures previousRunner == Get(old(instanceRunner), i, "")
      ensures State() == Edited(old(State()), f, i, r, q) && model == old(model)
    {
      var previousFunc := Get(instanceFunction, i, "");
      previousRunner := Get(instanceRunner, i, "");
      LeavePrevious(previousFunc, f, previousRunner, r, i);
      ListInstance(f, i, q);
      instanceFunction := instanceFunction[i := f];
      instanceRunner := instanceRunner[i := r];
      instanceQueue := instanceQueue[i := q];
      AddRunnerInstance(r, i);
    }

    /** Tables that represent a cache still do exactly if the update is clean. */
    method SetInstance(f: FuncId, i: Id, r: Addr, q: int)
      modifies this
      ensures State() == Placed(old(State()), f, i, r, q) && model == old(model).SetInstance(f, i, r, q)
      ensures old(Valid()) ==> (Valid() <==> Clean(old(model), Set(f, i, r, q)))
      ensures old(Valid()) && !Valid() ==> forall c :: !Represents(State(), c, {})
    {
      var previousRunner := PlaceInstance(f, i, r, q);
      RecomputeBoth(previousRunner, r);
      model := model.SetInstance(f, i, r, q);
      if old(Valid()) {
        PlacedRepresents(old(State()), old(model), f, i, r, q);
      }
    }

    /** One reported instance of a heartbeat. */
    method TakeInstance(r: Addr, i: Id, d: Depth)
      modifies this
      ensures State() == Taken(old(State()), r, i, d) && model == old(model)
    {
      var previousRunner := Get(instanceRunner, i, "");
      if previousRunner != "" && previousRunner != r {
        RemoveRunnerInstance(previousRunner, i);
        RecomputeRunnerRequests(previousRunner);
      }
      instanceRunner := instanceRunner[i := r];
      instanceQueue := instanceQueue[i := d];
      AddRunnerInstance(r, i);
      if i !in instanceFunction {
        return;
      }
      ListInstance(instanceFunction[i], i, d);
    }

    /** The same with what it means. */
    method MoveInstance(r: Addr, i: Id, d: Depth)
      modifies this
      ensures runnerInstances == Moved(old(runnerInstances), Get(old(instanceRunner), i, ""), r, i)
      ensures model == Put(old(model), i, Entry(r, d, old(model).FuncOf(i)))
      ensures Represents(old(State()), old(model), {r}) ==>
                (Represents(State(), model, {r}) <==> KeepsPlace(old(model), i, r))
    {
      TakeInstance(r, i, d);
      model := Put(model, i, Entry(r, d, model.FuncOf(i)));
      if Represents(old(State()), old(model), {r}) {
        TakenRepresents(old(State()), old(model), r, i, d);
      }
    }

    /** The reporting loop of a heartbeat. */
    method TakeReported(r: Addr, depths: map<Id, Depth>) returns (newInstances: set<Id>)
      modifies this
      ensures newInstances == depths.Keys && model == Reporting(old(model), r, depths, depths.Keys)
      ensures Represents(old(State()), old(model), {r}) && (forall i :: i in depths ==> KeepsPlace(old(model), i, r)) ==>
                Represents(State(), model, {r})
      ensures r in old(runnerInstances) ==> r in runnerInstances
      ensures r != "" ==> Get(old(runnerInstances), "", {}) <= Get(runnerInstances, "", {})
    {
      var todo := depths.Keys;
      newInstances := {};
      ghost var c, was := model, runnerInstances;
      ghost var ok := Represents(State(), c, {r}) && forall i :: i in depths ==> KeepsPlace(c, i, r);
      assert model == Reporting(c, r, depths, {});
      while todo != {}
        invariant newInstances == depths.Keys - todo && todo <= depths.Keys
        invariant model == Reporting(c, r, depths, newInstances)
        invariant ok ==> Represents(State(), model, {r})
        invariant r in was ==> r in runnerInstances
        invariant r != "" ==> Get(was, "", {}) <= Get(runnerInstances, "", {})
        decreases todo
      {
        var i :| i in todo;
        assert ok ==> KeepsPlace(c, i, r) && KeepsPlace(model, i, r);
        ReportingNext(c, r, depths, newInstances, i);
        newInstances := newInstances + {i};
        MoveInstance(r, i, depths[i]);
        todo := todo - {i};
      }
    }

    /** The dropping loop of a heartbeat. It walks the live set of the runner, which
        shrinks under its own deletions. */
    method DropUnreported(r: Addr, newInstances: set<Id>)
      modifies this
      ensures model == Keeping(old(model), r, newInstances)
      ensures Represents(old(State()), old(model), {r}) ==> Represents(State(), model, {r})
      ensures Keeps(old(runnerInstances), runnerInstances, newInstances)
    {
      ghost var c, gone, was := model, {}, runnerInstances;
      ghost var ok := Represents(State(), c, {r});
      var visited := {};
      assert Less(c, {}) == c;
      while r in runnerInstances && runnerInstances[r] - visited != {}
        invariant model == Less(c, gone)
        invariant ok ==> Represents(State(), model, {r})
        invariant ok ==> gone <= c.InstancesOn(r) - newInstances
        invariant visited <= newInstances + gone
        invariant Keeps(was, runnerInstances, newInstances)
        decreases Get(runnerInstances, r, {}) - visited
      {
        assert ok ==> RunnerAgrees(runnerInstances, model, r);
        var i :| i in runnerInstances[r] - visited;
        visited := visited + {i};
        if i in newInstances {
          continue;
        }
        RemovedKeeps(State(), i, was, newInstances);
        ForgetInstance(i, {r});
        assert Without(Less(c, gone), i) == Less(c, gone + {i});
        gone := gone + {i};
      }
      if ok {
        assert RunnerAgrees(runnerInstances, model, r);
        LessIsKeeping(c, gone, r, newInstances);
      }
      model := Keeping(c, r, newInstances);
    }

    /** The runner's set, total and metrics are replaced. */
    method FinishHeartbeat(r: Addr, newInstances: set<Id>, m: Metrics)
      modifies this
      ensures State() == FinishedTables(old(State()), r, newInstances, m) && model == old(model)
    {
      runnerInstances := runnerInstances[r := newInstances];
      RecomputeRunnerRequests(r);
      runnerStats := runnerStats[r := m];
    }

    /** Replaces what the runner reported last. The set of previous instances is the live
        one when the runner was known, and a fresh empty one otherwise. Tables that represent
        a cache still do exactly if the update is clean. */
    method UpsertRunnerHeartbeat(r: Addr, depths: map<Id, Depth>, m: Metrics)
      modifies this
      ensures model == old(model).Heartbeat(r, depths, m)
      ensures old(Valid()) ==> (Valid() <==> Clean(old(model), Beat(r, depths, m)))
      ensures old(Valid()) && !Valid() ==> forall c :: !Represents(State(), c, {})
    {
      ghost var c, was := model, runnerInstances;
      ghost var ok := Valid() && Clean(c, Beat(r, depths, m));
      if ok {
        UnsettledRepresents(State(), c, r);
      }
      var known := r in runnerInstances;
      var newInstances := TakeReported(r, depths);
      if known {
        DropUnreported(r, newInstances);
      }
      if ok {
        HeartbeatParts(c, r, depths, m, known);
        FinishedRepresents(State(), model, r, newInstances, m);
      }
      FinishHeartbeat(r, newInstances, m);
      model := c.Heartbeat(r, depths, m);
      if old(Valid()) && !ok {
        UncleanHeartbeat(was, runnerInstances, c, r, depths);
      }
    }

    /** The eviction loop, over the live set of the runner. */
    method DropAll(r: Addr)
      modifies this
      ensures model == Less(old(model), old(model).InstancesOn(r))
      ensures old(Valid()) ==> Valid()
    {
      ghost var c, gone, ok := model, {}, Valid();
      var visited := {};
      assert Less(c, {}) == c;
      while r in runnerInstances && runnerInstances[r] - visited != {}
        invariant model == Less(c, gone) && visited == gone
        invariant ok ==> Valid() && gone <= c.InstancesOn(r)
        decreases Get(runnerInstances, r, {}) - visited
      {
        assert ok ==> RunnerAgrees(runnerInstances, model, r);
        var i :| i in runnerInstances[r] - visited;
        visited := visited + {i};
        ForgetInstance(i, {});
        assert Without(Less(c, gone), i) == Less(c, gone + {i});
        gone := gone + {i};
      }
      if ok {
        assert RunnerAgrees(runnerInstances, model, r);
        assert gone == c.InstancesOn(r);
      }
      model := Less(c, c.InstancesOn(r));
    }

    method RemoveRunner(r: Addr)
      modifies this
      ensures model == old(model).Evict(r)
      ensures old(Valid()) ==> Valid()
    {
      DropAll(r);
      EvictedParts(old(model), r);
      if old(Valid()) {
        EvictedRepresents(State(), model, r);
      }
      runnerInstances := runnerInstances - {r};
      runnerRequests := runnerRequests - {r};
      runnerStats := runnerStats - {r};
      model := model.Evict(r);
    }

    method Update(op: Op)
      modifies this
      ensures model == Apply(old(model), op)
      ensures old(Valid()) ==> (Valid() <==> Clean(old(model), op))
    {
      match op
      case Set(f, i, r, q) => SetInstance(f, i, r, q);
      case Beat(r, depths, m) => UpsertRunnerHeartbeat(r, depths, m);
      case Drop(r) => RemoveRunner(r);
    }
  }

  /** Before a heartbeat: the runner's total need not be right any more. */
  lemma UnsettledRepresents(t: Tables, c: Cache, r: Addr)
    requires Represents(t, c, {})
    ensures Represents(t, c, {r}) && (r !in t.runnerInstances ==> c.InstancesOn(r) == {})
  {
    assert forall a :: a in {} || TotalAgrees(t.runnerRequests, c, a);
    assert RunnerAgrees(t.runnerInstances, c, r);
  }

  /** A reported instance that was on the runner "" ends up in two runner sets. */
  lemma UncleanHeartbeat(was: map<Addr, set<Id>>, ri: map<Addr, set<Id>>, c: Cache, r: Addr, depths: map<Id, Depth>)
    requires RunnersAgree(was, c) && exists i :: i in depths && !KeepsPlace(c, i, r)
    requires Get(was, "", {}) * depths.Keys <= Get(ri, "", {}) && Get(ri, r, {}) == depths.Keys
    ensures forall c' :: !RunnersAgree(ri, c')
  {
    var i :| i in depths && !KeepsPlace(c, i, r);
    assert RunnerAgrees(was, c, "") && i in c.InstancesOn("");
    forall c'
      ensures !RunnersAgree(ri, c')
    {
      InTwoSets(ri, c', i, "", r);
    }
  }

  /** Each update is clean for the cache it finds. */
  predicate AllClean(ops: seq<Op>) {
    ops == [] || (AllClean(ops[..|ops| - 1]) && Clean(ApplyAll(EMPTY, ops[..|ops| - 1]), ops[|ops| - 1]))
  }

  /** Any sequence of clean updates, in any iteration order, leaves tables that represent the
      abstract run. */
  method Replay(ops: seq<Op>) returns (cache: InMemoryCache)
    ensures fresh(cache) && cache.model == ApplyAll(EMPTY, ops)
    ensures AllClean(ops) ==> cache.Valid()
  {
    if ops == [] {
      cache := new InMemoryCache();
    } else {
      cache := Replay(ops[..|ops| - 1]);
      cache.Update(ops[|ops| - 1]);
    }
  }

  /** In the tables themselves: the cached totals over all runners add up to the queue
      lengths over all instances. */
  lemma TotalsAddUp(t: Tables, c: Cache)
    requires Represents(t, c, {})
    ensures Sum(t.runnerRequests.Keys, t.runnerRequests) == Sum(t.instanceQueue.Keys, t.instanceQueue)
  {
    forall r
      ensures r in t.runnerRequests <==> r in c.Loads()
      ensures r in t.runnerRequests ==> t.runnerRequests[r] == c.Loads()[r]
    {
      assert r in {} || TotalAgrees(t.runnerRequests, c, r);
    }
    forall i
      ensures i in t.instanceQueue <==> i in c.entries
      ensures i in c.entries ==> t.instanceQueue[i] == c.entries[i].queue
    {
      assert InstanceAgrees(t, c, i);
    }
    assert t.runnerRequests == c.Loads() && t.instanceQueue == c.Queues();
    RepresentedOk(t, c, {});
    CacheLaws.LoadsOver(c, c.runners);
    assert CacheLaws.Among(c, c.runners) == c.entries.Keys;
    assert c.Loads().Keys == c.runners && c.Queues().Keys == c.entries.Keys;
  }

  // ---- the cache in the middle of a heartbeat

  /** Some reported instances are taken. */
  function Reporting(c: Cache, r: Addr, depths: map<Id, Depth>, done: set<Id>): Cache
    requires done <= depths.Keys
  {
    Cache(map i | i in c.entries.Keys + done :: if i in done then Entry(r, depths[i], c.FuncOf(i)) else c.entries[i],
          if done == {} then c.runners else c.runners + {r},
          c.stats)
  }

  /** The runner's instances outside a set are gone. */
  function Keeping(c: Cache, r: Addr, keep: set<Id>): Cache {
    Cache(map i | i in c.entries && (c.entries[i].runner != r || i in keep) :: c.entries[i], c.runners, c.stats)
  }

  function Less(c: Cache, gone: set<Id>): Cache {
    Cache(c.entries - gone, c.runners, c.stats)
  }

  function Finished(c: Cache, r: Addr, m: Metrics): Cache {
    Cache(c.entries, c.runners + {r}, c.stats[r := m])
  }

  /** No runner's set has lost one of the instances. */
  ghost predicate Keeps(was: map<Addr, set<Id>>, ri: map<Addr, set<Id>>, ids: set<Id>) {
    forall a :: Get(was, a, {}) * ids <= Get(ri, a, {})
  }

  lemma RemovedKeeps(t: Tables, i: Id, was: map<Addr, set<Id>>, ids: set<Id>)
    requires Keeps(was, t.runnerInstances, ids) && i !in ids
    ensures Keeps(was, Removed(t, i).runnerInstances, ids)
    ensures forall a :: Get(Removed(t, i).runnerInstances, a, {}) <= Get(t.runnerInstances, a, {})
  {
  }

  lemma LessIsKeeping(c: Cache, gone: set<Id>, r: Addr, keep: set<Id>)
    requires gone <= c.InstancesOn(r) - keep && Less(c, gone).InstancesOn(r) <= keep + gone
    ensures Less(c, gone) == Keeping(c, r, keep)
  {
    assert forall i :: i in c.entries && i !in gone && c.entries[i].runner == r ==> i in Less(c, gone).InstancesOn(r);
    assert Less(c, gone).entries == Keeping(c, r, keep).entries;
  }

  lemma ReportingNext(c: Cache, r: Addr, depths: map<Id, Depth>, done: set<Id>, i: Id)
    requires done <= depths.Keys && i in depths && i !in done
    ensures var now := Reporting(c, r, depths, done);
            Put(now, i, Entry(r, depths[i], now.FuncOf(i))) == Reporting(c, r, depths, done + {i})
  {
    var now := Reporting(c, r, depths, done);
    var next := Reporting(c, r, depths, done + {i});
    assert now.FuncOf(i) == c.FuncOf(i);
    assert Put(now, i, Entry(r, depths[i], now.FuncOf(i))).entries == next.entries;
  }

  /** Taking, dropping and finishing make up the heartbeat. */
  lemma HeartbeatParts(c: Cache, r: Addr, depths: map<Id, Depth>, m: Metrics, known: bool)
    requires !known ==> c.InstancesOn(r) == {}
    ensures var taken := Reporting(c, r, depths, depths.Keys);
            var kept := if known then Keeping(taken, r, depths.Keys) else taken;
            Finished(kept, r, m) == c.Heartbeat(r, depths, m) && kept.InstancesOn(r) == depths.Keys
  {
    var taken := Reporting(c, r, depths, depths.Keys);
    var kept := if known then Keeping(taken, r, depths.Keys) else taken;
    assert forall i :: i in c.entries && c.entries[i].runner == r ==> i in c.InstancesOn(r);
    assert kept.entries == c.Heartbeat(r, depths, m).entries;
    assert kept.InstancesOn(r) == depths.Keys;
  }

  ghost function FinishedTables(t: Tables, r: Addr, ids: set<Id>, m: Metrics): Tables {
    var ri := t.runnerInstances[r := ids];
    t.(runnerInstances := ri, runnerStats := t.runnerStats[r := m],
       runnerRequests := Recomputed(ri, t.instanceQueue, t.runnerRequests, r))
  }

  lemma FinishedRepresents(t: Tables, c: Cache, r: Addr, ids: set<Id>, m: Metrics)
    requires Represents(t, c, {r}) && c.InstancesOn(r) == ids
    ensures Represents(FinishedTables(t, r, ids, m), Finished(c, r, m), {})
  {
    var ri, c', t' := t.runnerInstances[r := ids], Finished(c, r, m), FinishedTables(t, r, ids, m);
    forall i
      ensures InstanceAgrees(t', c', i) && InstanceAgrees(t, c, i)
    {
      assert InstanceAgrees(t, c, i);
    }
    forall f
      ensures FunctionAgrees(t'.funcInstances, c', f)
    {
      assert FunctionAgrees(t.funcInstances, c, f);
      assert c'.Instances(f) == c.Instances(f);
    }
    forall a
      ensures RunnerAgrees(ri, c', a)
    {
      assert RunnerAgrees(t.runnerInstances, c, a);
      assert c'.InstancesOn(a) == c.InstancesOn(a);
    }
    FinishedTotals(t, c, r, ids, m);
  }

  lemma FinishedTotals(t: Tables, c: Cache, r: Addr, ids: set<Id>, m: Metrics)
    requires InstancesAgree(t, c) && TotalsAgree(t.runnerRequests, c, {r})
    requires RunnersAgree(t.runnerInstances[r := ids], Finished(c, r, m))
    ensures TotalsAgree(Recomputed(t.runnerInstances[r := ids], t.instanceQueue, t.runnerRequests, r), Finished(c, r, m), {})
  {
    var c' := Finished(c, r, m);
    forall a | a !in {r}
      ensures TotalAgrees(t.runnerRequests, c', a)
    {
      assert TotalAgrees(t.runnerRequests, c, a);
      assert c'.InstancesOn(a) == c.InstancesOn(a) && c'.Queues() == c.Queues();
    }
    forall i | i in c'.InstancesOn(r)
      ensures Get(t.instanceQueue, i, 0) == c'.entries[i].queue
    {
      assert InstanceAgrees(t, c, i);
    }
    assert {} + {r} == {r};
    TotalsRecomputed(t.runnerInstances[r := ids], t.instanceQueue, t.runnerRequests, c', r, {});
  }

  lemma EvictedParts(c: Cache, r: Addr)
    ensures var left := Less(c, c.InstancesOn(r));
            left.Evict(r) == c.Evict(r) && left.InstancesOn(r) == {}
  {
    var left := Less(c, c.InstancesOn(r));
    assert left.InstancesOn(r) == {};
    assert left.Evict(r).entries == c.Evict(r).entries;
  }

  /** Forgetting a runner that has no instances left. */
  lemma EvictedRepresents(t: Tables, c: Cache, r: Addr)
    requires Represents(t, c, {}) && c.InstancesOn(r) == {}
    ensures Represents(t.(runnerInstances := t.runnerInstances - {r}, runnerRequests := t.runnerRequests - {r},
                          runnerStats := t.runnerStats - {r}),
                       c.Evict(r), {})
  {
    var c' := c.Evict(r);
    assert forall i :: i in c.entries && c.entries[i].runner == r ==> i in c.InstancesOn(r);
    assert c'.entries == c.entries;
    forall i
      ensures InstanceAgrees(t, c, i)
    {
    }
    forall f
      ensures FunctionAgrees(t.funcInstances, c', f)
    {
      assert FunctionAgrees(t.funcInstances, c, f);
      assert c'.Instances(f) == c.Instances(f);
    }
    forall a
      ensures RunnerAgrees(t.runnerInstances - {r}, c', a)
    {
      assert RunnerAgrees(t.runnerInstances, c, a);
      assert c'.InstancesOn(a) == c.InstancesOn(a);
    }
    forall a
      ensures TotalAgrees(t.runnerRequests - {r}, c', a)
    {
      assert a in {} || TotalAgrees(t.runnerRequests, c, a);
      assert c'.InstancesOn(a) == c.InstancesOn(a) && c'.Queues() == c.Queues();
    }
    var t' := t.(runnerInstances := t.runnerInstances - {r}, runnerRequests := t.runnerRequests - {r},
                 runnerStats := t.runnerStats - {r});
    forall i
      ensures InstanceAgrees(t', c', i)
    {
      assert InstanceAgrees(t, c, i);
    }
  }
}
