/** What the seven tables of the in-memory cache mean, key by key, and how each locked
    edit of the tables follows an edit of the abstract cache. */
module CacheTables {
  import opened Prelude
  import opened CacheSpec

  datatype Tables = Tables(
    funcInstances: map<FuncId, map<Id, int>>,
    instanceFunction: map<Id, FuncId>,
    instanceRunner: map<Id, Addr>,
    instanceQueue: map<Id, int>,
    runnerInstances: map<Addr, set<Id>>,
    runnerRequests: map<Addr, int>,
    runnerStats: map<Addr, Metrics>)

  // ---- agreement of one key with the abstract cache

  ghost predicate InstanceAgrees(t: Tables, c: Cache, i: Id) {
    if i in c.entries then
      && i in t.instanceRunner && i in t.instanceQueue
      && c.entries[i] == Entry(t.instanceRunner[i], t.instanceQueue[i],
                               if i in t.instanceFunction then Some(t.instanceFunction[i]) else None)
    else
      i !in t.instanceRunner && i !in t.instanceQueue && i !in t.instanceFunction
  }

  /** A function is a key exactly when some instance is listed for it. */
  ghost predicate FunctionAgrees(fi: map<FuncId, map<Id, int>>, c: Cache, f: FuncId) {
    && c.Instances(f) == Get(fi, f, map[])
    && (f in fi ==> fi[f] != map[])
  }

  ghost predicate RunnerAgrees(ri: map<Addr, set<Id>>, c: Cache, r: Addr) {
    && c.InstancesOn(r) == Get(ri, r, {})
    && (r in ri <==> r in c.runners)
  }

  ghost predicate TotalAgrees(rr: map<Addr, int>, c: Cache, r: Addr) {
    && (r in rr <==> r in c.runners)
    && (r in rr ==> rr[r] == c.Load(r))
  }

  ghost predicate InstancesAgree(t: Tables, c: Cache) {
    forall i :: InstanceAgrees(t, c, i)
  }

  ghost predicate FunctionsAgree(fi: map<FuncId, map<Id, int>>, c: Cache) {
    forall f :: FunctionAgrees(fi, c, f)
  }

  ghost predicate RunnersAgree(ri: map<Addr, set<Id>>, c: Cache) {
    forall r :: RunnerAgrees(ri, c, r)
  }

  /** The cached totals are right, except perhaps for runners being updated. */
  ghost predicate TotalsAgree(rr: map<Addr, int>, c: Cache, except: set<Addr>) {
    forall r :: r in except || TotalAgrees(rr, c, r)
  }

  /** The seven tables represent the abstract cache. */
  ghost predicate Represents(t: Tables, c: Cache, except: set<Addr>) {
    && InstancesAgree(t, c)
    && FunctionsAgree(t.funcInstances, c)
    && RunnersAgree(t.runnerInstances, c)
    && TotalsAgree(t.runnerRequests, c, except)
    && t.runnerStats == c.stats
    && c.stats.Keys <= c.runners
  }

  /** Every instance of a represented cache sits on a known runner. */
  lemma RepresentedOk(t: Tables, c: Cache, except: set<Addr>)
    requires Represents(t, c, except)
    ensures c.Ok()
  {
    forall i | i in c.entries
      ensures c.entries[i].runner in c.runners
    {
      var r := c.entries[i].runner;
      assert RunnerAgrees(t.runnerInstances, c, r);
      assert i in c.InstancesOn(r);
    }
  }

  // ---- the abstract edits

  /** The cache with one instance placed. */
  function Put(c: Cache, i: Id, e: Entry): Cache {
    Cache(c.entries[i := e], c.runners + {e.runner}, c.stats)
  }

  /** The cache without one instance. */
  function Without(c: Cache, i: Id): Cache {
    Cache(c.entries - {i}, c.runners, c.stats)
  }

  // ---- edits of the function table

  /** Removing an instance from a function's list; an emptied list goes away. */
  function Unlist(fi: map<FuncId, map<Id, int>>, f: FuncId, i: Id): map<FuncId, map<Id, int>> {
    if f !in fi then fi
    else if fi[f] - {i} == map[] then fi - {f}
    else fi[f := fi[f] - {i}]
  }

  function List(fi: map<FuncId, map<Id, int>>, f: FuncId, i: Id, q: int): map<FuncId, map<Id, int>> {
    fi[f := Get(fi, f, map[])[i := q]]
  }

  function UnlistFrom(fi: map<FuncId, map<Id, int>>, f: Option<FuncId>, i: Id): map<FuncId, map<Id, int>> {
    if f.Some? then Unlist(fi, f.value, i) else fi
  }

  function UnlistOther(fi: map<FuncId, map<Id, int>>, previous: FuncId, f: FuncId, i: Id)
    : map<FuncId, map<Id, int>>
  {
    if previous != "" && previous != f then Unlist(fi, previous, i) else fi
  }

  lemma InstancesPut(c: Cache, i: Id, e: Entry, f: FuncId)
    ensures Put(c, i, e).Instances(f) ==
            if e.func == Some(f) then c.Instances(f)[i := e.queue] else c.Instances(f) - {i}
  {
  }

  lemma InstancesWithout(c: Cache, i: Id, f: FuncId)
    ensures Without(c, i).Instances(f) == c.Instances(f) - {i}
    ensures c.FuncOf(i) != Some(f) ==> c.Instances(f) - {i} == c.Instances(f)
  {
  }

  lemma FunctionsWithout(fi: map<FuncId, map<Id, int>>, c: Cache, i: Id)
    requires FunctionsAgree(fi, c)
    ensures FunctionsAgree(UnlistFrom(fi, c.FuncOf(i), i), Without(c, i))
  {
    forall g
      ensures FunctionAgrees(UnlistFrom(fi, c.FuncOf(i), i), Without(c, i), g)
    {
      assert FunctionAgrees(fi, c, g);
      InstancesWithout(c, i, g);
    }
  }

  function ListFor(fi: map<FuncId, map<Id, int>>, i: Id, e: Entry): map<FuncId, map<Id, int>> {
    if e.func.Some? then List(fi, e.func.value, i, e.queue) else fi
  }

  lemma FunctionsPut(fi: map<FuncId, map<Id, int>>, c: Cache, i: Id, e: Entry)
    requires FunctionsAgree(fi, c)
    requires c.FuncOf(i).None? || c.FuncOf(i) == e.func
    ensures FunctionsAgree(ListFor(fi, i, e), Put(c, i, e))
  {
    forall g
      ensures FunctionAgrees(ListFor(fi, i, e), Put(c, i, e), g)
    {
      assert FunctionAgrees(fi, c, g);
      InstancesPut(c, i, e, g);
      InstancesWithout(c, i, g);
      assert i in Get(fi, g, map[])[i := e.queue];
    }
  }

  // ---- edits of the runner table

  function Detach(ri: map<Addr, set<Id>>, r: Addr, i: Id): map<Addr, set<Id>> {
    if r in ri then ri[r := ri[r] - {i}] else ri
  }

  function DetachOther(ri: map<Addr, set<Id>>, previous: Addr, r: Addr, i: Id): map<Addr, set<Id>> {
    if previous != "" && previous != r then Detach(ri, previous, i) else ri
  }

  function Attach(ri: map<Addr, set<Id>>, r: Addr, i: Id): map<Addr, set<Id>> {
    ri[r := Get(ri, r, {}) + {i}]
  }

  lemma RunnersWithout(ri: map<Addr, set<Id>>, c: Cache, i: Id)
    requires RunnersAgree(ri, c) && i in c.entries
    ensures RunnersAgree(Detach(ri, c.entries[i].runner, i), Without(c, i))
  {
    forall r
      ensures RunnerAgrees(Detach(ri, c.entries[i].runner, i), Without(c, i), r)
    {
      assert RunnerAgrees(ri, c, r);
      assert Without(c, i).InstancesOn(r) == c.InstancesOn(r) - {i};
      assert r != c.entries[i].runner ==> c.InstancesOn(r) - {i} == c.InstancesOn(r);
    }
  }

  lemma RunnersPut(ri: map<Addr, set<Id>>, c: Cache, i: Id, e: Entry)
    requires RunnersAgree(ri, c)
    requires i in c.entries ==> c.entries[i].runner == e.runner
    ensures RunnersAgree(Attach(ri, e.runner, i), Put(c, i, e))
  {
    forall r
      ensures RunnerAgrees(Attach(ri, e.runner, i), Put(c, i, e), r)
    {
      assert RunnerAgrees(ri, c, r);
      assert Put(c, i, e).InstancesOn(r) == if r == e.runner then c.InstancesOn(r) + {i} else c.InstancesOn(r);
    }
  }

  // ---- cached totals

  ghost function Recomputed(ri: map<Addr, set<Id>>, iq: map<Id, int>, rr: map<Addr, int>, r: Addr): map<Addr, int> {
    if r in ri then rr[r := Sum(ri[r], iq)] else rr - {r}
  }

  /** The two caches agree on every instance but one. */
  ghost predicate SameBut(c: Cache, c': Cache, i: Id) {
    forall j :: j != i ==> (j in c.entries <==> j in c'.entries) && (j in c.entries ==> c.entries[j] == c'.entries[j])
  }

  /** An edit of one instance leaves the load of every other runner alone. */
  lemma LoadElsewhere(c: Cache, c': Cache, i: Id, r: Addr)
    requires SameBut(c, c', i)
    requires i in c.entries ==> c.entries[i].runner != r
    requires i in c'.entries ==> c'.entries[i].runner != r
    ensures c'.Load(r) == c.Load(r)
  {
    assert c'.InstancesOn(r) == c.InstancesOn(r);
    SumAgree(c.InstancesOn(r), c.Queues(), c'.Queues());
  }

  lemma TotalsElsewhere(rr: map<Addr, int>, c: Cache, c': Cache, i: Id, except: set<Addr>)
    requires TotalsAgree(rr, c, except) && SameBut(c, c', i)
    requires forall r :: r !in except ==> (r in c.runners <==> r in c'.runners)
    requires i in c.entries ==> c.entries[i].runner in except
    requires i in c'.entries ==> c'.entries[i].runner in except
    ensures TotalsAgree(rr, c', except)
  {
    forall r | r !in except
      ensures TotalAgrees(rr, c', r)
    {
      assert TotalAgrees(rr, c, r);
      LoadElsewhere(c, c', i, r);
    }
  }

  /** Recomputing a runner settles its total. */
  lemma TotalsRecomputed(ri: map<Addr, set<Id>>, iq: map<Id, int>, rr: map<Addr, int>, c: Cache, r: Addr,
                         except: set<Addr>)
    requires TotalsAgree(rr, c, except + {r}) && RunnersAgree(ri, c) && r in c.runners
    requires forall i :: i in c.InstancesOn(r) ==> Get(iq, i, 0) == c.entries[i].queue
    ensures TotalsAgree(Recomputed(ri, iq, rr, r), c, except)
  {
    assert RunnerAgrees(ri, c, r);
    SumAgree(c.InstancesOn(r), iq, c.Queues());
    forall a | a !in except
      ensures TotalAgrees(Recomputed(ri, iq, rr, r), c, a)
    {
      assert a in except + {r} || TotalAgrees(rr, c, a);
    }
  }

  // ---- removing an instance

  /** Unlist, detach and recompute, then forget the instance. */
  ghost function Removed(t: Tables, i: Id): Tables {
    var ri := if i in t.instanceRunner then Detach(t.runnerInstances, t.instanceRunner[i], i) else t.runnerInstances;
    Tables(if i in t.instanceFunction then Unlist(t.funcInstances, t.instanceFunction[i], i) else t.funcInstances,
           t.instanceFunction - {i},
           t.instanceRunner - {i},
           t.instanceQueue - {i},
           ri,
           if i in t.instanceRunner then Recomputed(ri, t.instanceQueue, t.runnerRequests, t.instanceRunner[i])
           else t.runnerRequests,
           t.runnerStats)
  }

  lemma RemovedInstances(t: Tables, c: Cache, i: Id)
    requires InstancesAgree(t, c)
    ensures InstancesAgree(Removed(t, i), Without(c, i))
  {
    forall j
      ensures InstanceAgrees(Removed(t, i), Without(c, i), j)
    {
      assert InstanceAgrees(t, c, j);
    }
  }

  lemma RemovedTotals(t: Tables, c: Cache, i: Id, except: set<Addr>)
    requires InstancesAgree(t, c) && RunnersAgree(t.runnerInstances, c) && TotalsAgree(t.runnerRequests, c, except)
    requires i in c.entries
    ensures TotalsAgree(Removed(t, i).runnerRequests, Without(c, i), except)
    ensures RunnersAgree(Removed(t, i).runnerInstances, Without(c, i))
  {
    var c', r := Without(c, i), c.entries[i].runner;
    assert InstanceAgrees(t, c, i);
    RunnersWithout(t.runnerInstances, c, i);
    TotalsElsewhere(t.runnerRequests, c, c', i, except + {r});
    assert RunnerAgrees(t.runnerInstances, c, r) && i in c.InstancesOn(r);
    forall j | j in c'.InstancesOn(r)
      ensures Get(t.instanceQueue, j, 0) == c'.entries[j].queue
    {
      assert InstanceAgrees(t, c, j);
    }
    TotalsRecomputed(Detach(t.runnerInstances, r, i), t.instanceQueue, t.runnerRequests, c', r, except);
  }

  lemma RemovedRepresents(t: Tables, c: Cache, i: Id, except: set<Addr>)
    requires Represents(t, c, except)
    ensures Represents(Removed(t, i), Without(c, i), except)
  {
    RemovedInstances(t, c, i);
    assert InstanceAgrees(t, c, i);
    FunctionsWithout(t.funcInstances, c, i);
    if i in c.entries {
      RemovedTotals(t, c, i, except);
    } else {
      assert Without(c, i) == c;
    }
  }

  // ---- placing an instance

  lemma PutAfterWithout(c: Cache, i: Id, e: Entry)
    ensures Put(Without(c, i), i, e) == Put(c, i, e)
  {
  }

  lemma InstancesPlaced(t: Tables, c: Cache, i: Id, e: Entry, t': Tables)
    requires InstancesAgree(t, c)
    requires t'.instanceRunner == t.instanceRunner[i := e.runner] && t'.instanceQueue == t.instanceQueue[i := e.queue]
    requires t'.instanceFunction == if e.func.Some? then t.instanceFunction[i := e.func.value] else t.instanceFunction
    requires e.func.None? ==> i !in t.instanceFunction
    ensures InstancesAgree(t', Put(c, i, e))
  {
    forall j
      ensures InstanceAgrees(t', Put(c, i, e), j)
    {
      assert InstanceAgrees(t, c, j);
    }
  }

  /** The runner table once the instance has left its previous runner and joined the new one. */
  function Moved(ri: map<Addr, set<Id>>, previous: Addr, r: Addr, i: Id): map<Addr, set<Id>> {
    Attach(DetachOther(ri, previous, r, i), r, i)
  }

  lemma RunnersMoved(t: Tables, c: Cache, i: Id, e: Entry)
    requires InstancesAgree(t, c) && RunnersAgree(t.runnerInstances, c) && KeepsPlace(c, i, e.runner)
    ensures RunnersAgree(Moved(t.runnerInstances, Get(t.instanceRunner, i, ""), e.runner, i), Put(c, i, e))
    ensures i in c.entries ==> c.entries[i].runner in c.runners
  {
    assert InstanceAgrees(t, c, i);
    if i in c.entries {
      assert RunnerAgrees(t.runnerInstances, c, c.entries[i].runner) && i in c.InstancesOn(c.entries[i].runner);
    }
    if i in c.entries && c.entries[i].runner != e.runner {
      RunnersWithout(t.runnerInstances, c, i);
      RunnersPut(Detach(t.runnerInstances, c.entries[i].runner, i), Without(c, i), i, e);
      PutAfterWithout(c, i, e);
    } else {
      RunnersPut(t.runnerInstances, c, i, e);
    }
  }

  /** The totals once the new and the previous runner have been recomputed. */
  ghost function Resettled(ri: map<Addr, set<Id>>, iq: map<Id, int>, rr: map<Addr, int>, previous: Addr, r: Addr)
    : map<Addr, int>
  {
    var once := Recomputed(ri, iq, rr, r);
    if previous != "" && previous != r then Recomputed(ri, iq, once, previous) else once
  }

  lemma TotalsResettled(ri: map<Addr, set<Id>>, iq: map<Id, int>, rr: map<Addr, int>, c: Cache, i: Id, e: Entry,
                        previous: Addr)
    requires RunnersAgree(ri, Put(c, i, e)) && TotalsAgree(rr, c, {})
    requires forall j :: j in Put(c, i, e).entries ==> Get(iq, j, 0) == Put(c, i, e).entries[j].queue
    requires if i in c.entries then previous == c.entries[i].runner && previous in c.runners else previous == ""
    requires KeepsPlace(c, i, e.runner)
    ensures TotalsAgree(Resettled(ri, iq, rr, previous, e.runner), Put(c, i, e), {})
  {
    var c', once := Put(c, i, e), Recomputed(ri, iq, rr, e.runner);
    if previous != "" && previous != e.runner {
      TotalsElsewhere(rr, c, c', i, {previous} + {e.runner});
      TotalsRecomputed(ri, iq, rr, c', e.runner, {previous});
      assert {previous} == {} + {previous};
      TotalsRecomputed(ri, iq, once, c', previous, {});
    } else {
      TotalsElsewhere(rr, c, c', i, {} + {e.runner});
      TotalsRecomputed(ri, iq, rr, c', e.runner, {});
    }
  }

  /** SetInstance on the tables before totals are recomputed, pkg/caching/in_memory.go:73-95. */
  ghost function Edited(t: Tables, f: FuncId, i: Id, r: Addr, q: int): Tables {
    Tables(List(UnlistOther(t.funcInstances, Get(t.instanceFunction, i, ""), f, i), f, i, q),
           t.instanceFunction[i := f],
           t.instanceRunner[i := r],
           t.instanceQueue[i := q],
           Moved(t.runnerInstances, Get(t.instanceRunner, i, ""), r, i),
           t.runnerRequests,
           t.runnerStats)
  }

  ghost function Placed(t: Tables, f: FuncId, i: Id, r: Addr, q: int): Tables {
    var e := Edited(t, f, i, r, q);
    e.(runnerRequests := Resettled(e.runnerInstances, e.instanceQueue, e.runnerRequests, Get(t.instanceRunner, i, ""), r))
  }

  lemma PlacedFunctions(t: Tables, c: Cache, f: FuncId, i: Id, r: Addr, q: int)
    requires InstancesAgree(t, c) && FunctionsAgree(t.funcInstances, c) && KeepsFunction(c, i, f)
    ensures FunctionsAgree(Placed(t, f, i, r, q).funcInstances, Put(c, i, Entry(r, q, Some(f))))
  {
    var e := Entry(r, q, Some(f));
    assert InstanceAgrees(t, c, i);
    if c.FuncOf(i).Some? && c.FuncOf(i).value != f {
      FunctionsWithout(t.funcInstances, c, i);
      FunctionsPut(UnlistFrom(t.funcInstances, c.FuncOf(i), i), Without(c, i), i, e);
      PutAfterWithout(c, i, e);
    } else {
      FunctionsPut(t.funcInstances, c, i, e);
    }
  }

  lemma CleanlyPlaced(t: Tables, c: Cache, f: FuncId, i: Id, r: Addr, q: int)
    requires Represents(t, c, {}) && KeepsFunction(c, i, f) && KeepsPlace(c, i, r)
    ensures Represents(Placed(t, f, i, r, q), c.SetInstance(f, i, r, q), {})
  {
    var t', e := Placed(t, f, i, r, q), Entry(r, q, Some(f));
    assert c.SetInstance(f, i, r, q) == Put(c, i, e);
    assert InstanceAgrees(t, c, i);
    InstancesPlaced(t, c, i, e, t');
    PlacedFunctions(t, c, f, i, r, q);
    RunnersMoved(t, c, i, e);
    forall j | j in Put(c, i, e).entries
      ensures Get(t'.instanceQueue, j, 0) == Put(c, i, e).entries[j].queue
    {
      assert InstanceAgrees(t', Put(c, i, e), j);
    }
    TotalsResettled(t'.runnerInstances, t'.instanceQueue, t.runnerRequests, c, i, e, Get(t.instanceRunner, i, ""));
  }

  /** An instance in two runner sets, or in two function lists, is in no cache. */
  lemma InTwoSets(ri: map<Addr, set<Id>>, c: Cache, i: Id, a: Addr, b: Addr)
    requires a != b && i in Get(ri, a, {}) && i in Get(ri, b, {})
    ensures !RunnersAgree(ri, c)
  {
    assert c.InstancesOn(a) !! c.InstancesOn(b);
    assert !RunnerAgrees(ri, c, a) || !RunnerAgrees(ri, c, b);
  }

  lemma InTwoLists(fi: map<FuncId, map<Id, int>>, c: Cache, i: Id, f: FuncId, g: FuncId)
    requires f != g && i in Get(fi, f, map[]) && i in Get(fi, g, map[])
    ensures !FunctionsAgree(fi, c)
  {
    assert i !in c.Instances(f) || i !in c.Instances(g);
    assert !FunctionAgrees(fi, c, f) || !FunctionAgrees(fi, c, g);
  }

  /** Moved away from the runner "", an instance stays in its set. */
  lemma StaysBehind(t: Tables, c: Cache, i: Id, r: Addr)
    requires InstancesAgree(t, c) && RunnersAgree(t.runnerInstances, c) && !KeepsPlace(c, i, r)
    ensures forall c' :: !RunnersAgree(Moved(t.runnerInstances, Get(t.instanceRunner, i, ""), r, i), c')
  {
    var moved := Moved(t.runnerInstances, Get(t.instanceRunner, i, ""), r, i);
    assert InstanceAgrees(t, c, i) && RunnerAgrees(t.runnerInstances, c, "");
    assert i in c.InstancesOn("") && i in Get(moved, "", {}) && i in Get(moved, r, {});
    forall c'
      ensures !RunnersAgree(moved, c')
    {
      InTwoSets(moved, c', i, "", r);
    }
  }

  lemma StaysListed(t: Tables, c: Cache, f: FuncId, i: Id, r: Addr, q: int)
    requires InstancesAgree(t, c) && FunctionsAgree(t.funcInstances, c) && !KeepsFunction(c, i, f)
    ensures forall c' :: !FunctionsAgree(Placed(t, f, i, r, q).funcInstances, c')
  {
    var fi := Placed(t, f, i, r, q).funcInstances;
    assert InstanceAgrees(t, c, i) && FunctionAgrees(t.funcInstances, c, "");
    assert i in c.Instances("") && i in Get(fi, "", map[]) && i in Get(fi, f, map[]);
    forall c'
      ensures !FunctionsAgree(fi, c')
    {
      InTwoLists(fi, c', i, "", f);
    }
  }

  /** SetInstance on tables that represent a cache: they follow the abstract update if it is
      clean, and represent no cache at all otherwise. */
  lemma PlacedRepresents(t: Tables, c: Cache, f: FuncId, i: Id, r: Addr, q: int)
    requires Represents(t, c, {})
    ensures if Clean(c, Set(f, i, r, q)) then Represents(Placed(t, f, i, r, q), c.SetInstance(f, i, r, q), {})
            else forall c', except :: !Represents(Placed(t, f, i, r, q), c', except)
  {
    if !KeepsPlace(c, i, r) {
      StaysBehind(t, c, i, r);
    } else if !KeepsFunction(c, i, f) {
      StaysListed(t, c, f, i, r, q);
    } else {
      CleanlyPlaced(t, c, f, i, r, q);
    }
  }

  // ---- one instance of a heartbeat

  /** The body of the reporting loop, pkg/caching/in_memory.go:124-141. */
  ghost function Taken(t: Tables, r: Addr, i: Id, d: int): Tables {
    var previous := Get(t.instanceRunner, i, "");
    Tables(if i in t.instanceFunction then List(t.funcInstances, t.instanceFunction[i], i, d) else t.funcInstances,
           t.instanceFunction,
           t.instanceRunner[i := r],
           t.instanceQueue[i := d],
           Moved(t.runnerInstances, previous, r, i),
           if previous != "" && previous != r then
             Recomputed(Detach(t.runnerInstances, previous, i), t.instanceQueue, t.runnerRequests, previous)
           else t.runnerRequests,
           t.runnerStats)
  }

  lemma TakenTotals(t: Tables, c: Cache, r: Addr, i: Id, d: int)
    requires InstancesAgree(t, c) && RunnersAgree(t.runnerInstances, c) && TotalsAgree(t.runnerRequests, c, {r})
    requires KeepsPlace(c, i, r)
    ensures TotalsAgree(Taken(t, r, i, d).runnerRequests, Put(c, i, Entry(r, d, c.FuncOf(i))), {r})
  {
    var c' := Put(c, i, Entry(r, d, c.FuncOf(i)));
    assert InstanceAgrees(t, c, i);
    RunnersMoved(t, c, i, Entry(r, d, c.FuncOf(i)));
    if i in c.entries && c.entries[i].runner != r {
      var previous := c.entries[i].runner;
      var c1, ri := Without(c, i), Detach(t.runnerInstances, previous, i);
      RunnersWithout(t.runnerInstances, c, i);
      TotalsElsewhere(t.runnerRequests, c, c1, i, {r} + {previous});
      forall j | j in c1.InstancesOn(previous)
        ensures Get(t.instanceQueue, j, 0) == c1.entries[j].queue
      {
        assert InstanceAgrees(t, c, j);
      }
      TotalsRecomputed(ri, t.instanceQueue, t.runnerRequests, c1, previous, {r});
      TotalsElsewhere(Recomputed(ri, t.instanceQueue, t.runnerRequests, previous), c1, c', i, {r});
    } else {
      TotalsElsewhere(t.runnerRequests, c, c', i, {r});
    }
  }

  lemma TakenInstances(t: Tables, c: Cache, r: Addr, i: Id, d: int)
    requires InstancesAgree(t, c)
    ensures InstancesAgree(Taken(t, r, i, d), Put(c, i, Entry(r, d, c.FuncOf(i))))
  {
    var e := Entry(r, d, c.FuncOf(i));
    assert InstanceAgrees(t, c, i);
    if i in t.instanceFunction {
      assert t.instanceFunction[i := e.func.value] == t.instanceFunction;
    }
    InstancesPlaced(t, c, i, e, Taken(t, r, i, d));
  }

  lemma TakenFunctions(t: Tables, c: Cache, r: Addr, i: Id, d: int)
    requires InstancesAgree(t, c) && FunctionsAgree(t.funcInstances, c)
    ensures FunctionsAgree(Taken(t, r, i, d).funcInstances, Put(c, i, Entry(r, d, c.FuncOf(i))))
  {
    assert InstanceAgrees(t, c, i);
    FunctionsPut(t.funcInstances, c, i, Entry(r, d, c.FuncOf(i)));
  }

  lemma CleanlyTaken(t: Tables, c: Cache, r: Addr, i: Id, d: int)
    requires Represents(t, c, {r}) && KeepsPlace(c, i, r)
    ensures Represents(Taken(t, r, i, d), Put(c, i, Entry(r, d, c.FuncOf(i))), {r})
  {
    TakenInstances(t, c, r, i, d);
    TakenFunctions(t, c, r, i, d);
    assert RunnersAgree(Taken(t, r, i, d).runnerInstances, Put(c, i, Entry(r, d, c.FuncOf(i)))) by {
      RunnersMoved(t, c, i, Entry(r, d, c.FuncOf(i)));
    }
    TakenTotals(t, c, r, i, d);
  }

  /** One reported instance: the tables follow the abstract move if the instance is not
      moved away from the runner "", and represent no cache otherwise. */
  lemma TakenRepresents(t: Tables, c: Cache, r: Addr, i: Id, d: int)
    requires Represents(t, c, {r})
    ensures if KeepsPlace(c, i, r) then Represents(Taken(t, r, i, d), Put(c, i, Entry(r, d, c.FuncOf(i))), {r})
            else forall c', except :: !Represents(Taken(t, r, i, d), c', except)
  {
    if KeepsPlace(c, i, r) {
      CleanlyTaken(t, c, r, i, d);
    } else {
      StaysBehind(t, c, i, r);
    }
  }

  // ---- tables and cache determine each other

  /** Tables that represent the same cache are equal, so no iteration order can show in
      them; and tables represent at most one cache. */
  lemma RepresentationUnique(t: Tables, c: Cache, t': Tables, c': Cache)
    requires Represents(t, c, {}) && Represents(t', c', {})
    ensures t == t' <==> c == c'
  {
    if t == t' {
      CacheDetermined(t, c, c');
    }
    if c == c' {
      InstanceTablesDetermined(t, t', c);
      OtherTablesDetermined(t, t', c);
    }
  }

  lemma CacheDetermined(t: Tables, c: Cache, c': Cache)
    requires Represents(t, c, {}) && Represents(t, c', {})
    ensures c == c'
  {
    forall i
      ensures (i in c.entries <==> i in c'.entries) && (i in c.entries ==> c.entries[i] == c'.entries[i])
    {
      assert InstanceAgrees(t, c, i) && InstanceAgrees(t, c', i);
    }
    forall r
      ensures r in c.runners <==> r in c'.runners
    {
      assert RunnerAgrees(t.runnerInstances, c, r) && RunnerAgrees(t.runnerInstances, c', r);
    }
    assert c.entries == c'.entries && c.runners == c'.runners;
  }

  lemma InstanceTablesDetermined(t: Tables, t': Tables, c: Cache)
    requires InstancesAgree(t, c) && InstancesAgree(t', c)
    ensures t.instanceFunction == t'.instanceFunction
    ensures t.instanceRunner == t'.instanceRunner && t.instanceQueue == t'.instanceQueue
  {
    forall i
      ensures (i in t.instanceRunner <==> i in t'.instanceRunner) && (i in t.instanceQueue <==> i in t'.instanceQueue)
      ensures i in t.instanceFunction <==> i in t'.instanceFunction
      ensures i in t.instanceRunner ==> t.instanceRunner[i] == t'.instanceRunner[i]
      ensures i in t.instanceQueue ==> t.instanceQueue[i] == t'.instanceQueue[i]
      ensures i in t.instanceFunction ==> t.instanceFunction[i] == t'.instanceFunction[i]
    {
      assert InstanceAgrees(t, c, i) && InstanceAgrees(t', c, i);
    }
  }

  lemma OtherTablesDetermined(t: Tables, t': Tables, c: Cache)
    requires Represents(t, c, {}) && Represents(t', c, {})
    ensures t.funcInstances == t'.funcInstances
    ensures t.runnerInstances == t'.runnerInstances && t.runnerRequests == t'.runnerRequests
  {
    forall f
      ensures f in t.funcInstances <==> f in t'.funcInstances
      ensures f in t.funcInstances ==> t.funcInstances[f] == t'.funcInstances[f]
    {
      assert FunctionAgrees(t.funcInstances, c, f) && FunctionAgrees(t'.funcInstances, c, f);
    }
    forall r
      ensures (r in t.runnerInstances <==> r in t'.runnerInstances) && (r in t.runnerRequests <==> r in t'.runnerRequests)
      ensures r in t.runnerInstances ==> t.runnerInstances[r] == t'.runnerInstances[r]
      ensures r in t.runnerRequests ==> t.runnerRequests[r] == t'.runnerRequests[r]
    {
      assert RunnerAgrees(t.runnerInstances, c, r) && RunnerAgrees(t'.runnerInstances, c, r);
      assert r in {} || TotalAgrees(t.runnerRequests, c, r);
      assert r in {} || TotalAgrees(t'.runnerRequests, c, r);
    }
  }

  // ---- empty names

  /** Whatever the tables hold: an instance placed on a runner and then on another one is
      still in the first one's set exactly if the first one's name is empty. */
  lemma LeftBehindIff(t: Tables, f: FuncId, g: FuncId, i: Id, r: Addr, b: Addr, q: int, q': int)
    requires b != r
    ensures var twice := Placed(Placed(t, f, i, r, q), g, i, b, q');
            && i in Get(twice.runnerInstances, b, {})
            && (i in Get(twice.runnerInstances, r, {}) <==> r == "")
  {
  }

  /** The same for the lists of two functions. */
  lemma LeftListedIff(t: Tables, f: FuncId, g: FuncId, i: Id, r: Addr, b: Addr, q: int, q': int)
    requires g != f
    ensures var twice := Placed(Placed(t, f, i, r, q), g, i, b, q');
            && i in Get(twice.funcInstances, g, map[])
            && (i in Get(twice.funcInstances, f, map[]) <==> f == "")
  {
    var once := Placed(t, f, i, r, q);
    assert once.instanceFunction[i] == f && i in once.funcInstances[f];
  }
}
