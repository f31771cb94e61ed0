/** What the routing cache means: one map from instance to (runner, queue, function),
    the set of known runners and their last metrics. The seven redundant tables of
    pkg/caching/in_memory.go are shown to represent exactly this in InMemoryCache.dfy. */
module CacheSpec {
  import opened Prelude

  type Id = string
  type Addr = string
  type FuncId = string

  /** A queue depth as it travels in a heartbeat (uint32). */
  type Depth = d: int | 0 <= d <= 4294967295

  datatype Metrics = Metrics(cpuPercent: real, unusedMemoryBytes: nat)

  datatype Entry = Entry(runner: Addr, queue: int, func: Option<FuncId>)

  datatype Cache = Cache(entries: map<Id, Entry>, runners: set<Addr>, stats: map<Addr, Metrics>) {

    ghost predicate Ok() {
      && (forall i :: i in entries ==> entries[i].runner in runners)
      && stats.Keys <= runners
    }

    function FuncOf(i: Id): Option<FuncId> {
      if i in entries then entries[i].func else None
    }

    // ---- updates

    function SetInstance(f: FuncId, i: Id, r: Addr, q: int): Cache {
      Cache(entries[i := Entry(r, q, Some(f))], runners + {r}, stats)
    }

    /** A heartbeat takes over what it reports, keeping known functions, and forgets
        what the runner had and no longer reports. */
    function Heartbeat(r: Addr, depths: map<Id, Depth>, m: Metrics): Cache {
      Cache(map i | i in entries.Keys + depths.Keys && (i in depths || entries[i].runner != r) ::
              if i in depths then Entry(r, depths[i], FuncOf(i)) else entries[i],
            runners + {r},
            stats[r := m])
    }

    function Evict(r: Addr): Cache {
      Cache(map i | i in entries && entries[i].runner != r :: entries[i], runners - {r}, stats - {r})
    }

    // ---- queries

    /** The instances listed for a function, each with its queue length. */
    function Instances(f: FuncId): map<Id, int> {
      map i | i in entries && entries[i].func == Some(f) :: entries[i].queue
    }

    function InstancesOn(r: Addr): set<Id> {
      set i | i in entries && entries[i].runner == r
    }

    function Queues(): map<Id, int> {
      map i | i in entries :: entries[i].queue
    }

    ghost function Load(r: Addr): int {
      Sum(InstancesOn(r), Queues())
    }

    ghost function Loads(): map<Addr, int> {
      map r | r in runners :: Load(r)
    }
  }

  const EMPTY := Cache(map[], {}, map[])

  // ---- runs of the three updates

  datatype Op =
    | Set(f: FuncId, i: Id, r: Addr, q: int)
    | Beat(r: Addr, depths: map<Id, Depth>, m: Metrics)
    | Drop(r: Addr)

  function Apply(c: Cache, op: Op): Cache {
    match op
    case Set(f, i, r, q) => c.SetInstance(f, i, r, q)
    case Beat(r, depths, m) => c.Heartbeat(r, depths, m)
    case Drop(r) => c.Evict(r)
  }

  function ApplyAll(c: Cache, ops: seq<Op>): Cache {
    if ops == [] then c
    else Apply(ApplyAll(c, ops[..|ops| - 1]), ops[|ops| - 1])
  }

  function Reported(op: Op): set<Id> {
    if op.Beat? then op.depths.Keys else {}
  }

  // ---- empty names

  /** The instance is not moved away from the runner "". */
  predicate KeepsPlace(c: Cache, i: Id, r: Addr) {
    i in c.entries && c.entries[i].runner == "" ==> r == ""
  }

  /** The instance is not moved away from the function "". */
  predicate KeepsFunction(c: Cache, i: Id, f: FuncId) {
    c.FuncOf(i) == Some("") ==> f == ""
  }

  /** The tables read "" as "absent"; the update takes no instance away from the name "". */
  predicate Clean(c: Cache, op: Op) {
    match op
    case Set(f, i, r, _) => KeepsFunction(c, i, f) && KeepsPlace(c, i, r)
    case Beat(r, depths, _) => forall i :: i in depths ==> KeepsPlace(c, i, r)
    case Drop(_) => true
  }

  /** No runner and no function of the cache has an empty name. */
  ghost predicate Named(c: Cache) {
    "" !in c.runners && forall i :: i in c.entries ==> c.entries[i].func != Some("")
  }

  /** Updates with names keep a cache with names, and they are clean. */
  lemma NamedIsClean(c: Cache, op: Op)
    requires c.Ok() && Named(c) && op.r != "" && (op.Set? ==> op.f != "")
    ensures Clean(c, op) && Named(Apply(c, op))
  {
  }
}
