/** Laws of the routing cache over every run of its updates. */
module CacheLaws {
  import opened Prelude
  import opened CacheSpec

  lemma {:induction false} RunKeepsOk(c: Cache, ops: seq<Op>)
    requires c.Ok()
    ensures ApplyAll(c, ops).Ok()
  {
    if ops == [] {
    } else {
      RunKeepsOk(c, ops[..|ops| - 1]);
    }
  }

  lemma {:induction false} ApplyAllConcat(c: Cache, a: seq<Op>, b: seq<Op>)
    ensures ApplyAll(c, a + b) == ApplyAll(ApplyAll(c, a), b)
    decreases |b|
  {
    if b == [] {
      assert a + b == a;
    } else {
      ApplyAllConcat(c, a, b[..|b| - 1]);
      assert (a + b)[..|a + b| - 1] == a + b[..|b| - 1];
    }
  }

  lemma ApplyAllFirst(c: Cache, x: Op, b: seq<Op>)
    ensures ApplyAll(c, [x] + b) == ApplyAll(Apply(c, x), b)
  {
    ApplyAllConcat(c, [x], b);
    assert [x][..0] == [];
  }

  // ---- one instance at a time

  function At(c: Cache, i: Id): Option<Entry> {
    if i in c.entries then Some(c.entries[i]) else None
  }

  /** What an update does to the entry of one instance. */
  function Effect(e: Option<Entry>, op: Op, i: Id): Option<Entry> {
    match op
    case Set(f, j, r, q) => if i == j then Some(Entry(r, q, Some(f))) else e
    case Beat(r, depths, _) =>
      if i in depths then Some(Entry(r, depths[i], if e.Some? then e.value.func else None))
      else if e.Some? && e.value.runner == r then None else e
    case Drop(r) => if e.Some? && e.value.runner == r then None else e
  }

  lemma ApplyAt(c: Cache, op: Op, i: Id)
    ensures At(Apply(c, op), i) == Effect(At(c, i), op, i)
  {
  }

  lemma SameEntries(c: Cache, d: Cache)
    requires forall i :: At(c, i) == At(d, i)
    ensures c.entries == d.entries
  {
    forall i
      ensures i in c.entries <==> i in d.entries
      ensures i in c.entries ==> c.entries[i] == d.entries[i]
    {
      assert At(c, i) == At(d, i);
    }
  }

  // ---- conservation of load

  /** The instances on any of the given runners. */
  function Among(c: Cache, rs: set<Addr>): set<Id> {
    set i | i in c.entries && c.entries[i].runner in rs
  }

  lemma {:induction false} LoadsOver(c: Cache, rs: set<Addr>)
    requires rs <= c.runners
    ensures Sum(rs, c.Loads()) == Sum(Among(c, rs), c.Queues())
    decreases rs
  {
    if rs == {} {
      assert Among(c, rs) == {};
    } else {
      var r :| r in rs;
      SumTakeOut(rs, c.Loads(), r);
      LoadsOver(c, rs - {r});
      var rest := Among(c, rs - {r});
      SumDisjointUnion(c.InstancesOn(r), rest, c.Queues());
      assert c.InstancesOn(r) + rest == Among(c, rs);
    }
  }

  /** The runners partition the instances, so the per-runner loads add up to the queue
      lengths of all instances, in every reachable cache. */
  lemma LoadIsConserved(ops: seq<Op>)
    ensures var c := ApplyAll(EMPTY, ops);
            Sum(c.runners, c.Loads()) == Sum(c.entries.Keys, c.Queues())
  {
    var c := ApplyAll(EMPTY, ops);
    RunKeepsOk(EMPTY, ops);
    LoadsOver(c, c.runners);
    assert Among(c, c.runners) == c.entries.Keys;
  }

  // ---- heartbeats

  /** Applying the same heartbeat twice equals applying it once. */
  lemma HeartbeatIdempotent(c: Cache, r: Addr, depths: map<Id, Depth>, m: Metrics)
    ensures c.Heartbeat(r, depths, m).Heartbeat(r, depths, m) == c.Heartbeat(r, depths, m)
  {
    var once := c.Heartbeat(r, depths, m);
    var twice := once.Heartbeat(r, depths, m);
    assert twice.entries.Keys == once.entries.Keys;
    assert twice.entries == once.entries;
  }

  /** After a heartbeat the runner's instances are exactly the reported ones. */
  lemma HeartbeatLoad(c: Cache, r: Addr, depths: map<Id, Depth>, m: Metrics)
    ensures var c' := c.Heartbeat(r, depths, m);
            c'.InstancesOn(r) == depths.Keys && c'.Load(r) == Sum(depths.Keys, depths)
  {
    var c' := c.Heartbeat(r, depths, m);
    assert c'.InstancesOn(r) == depths.Keys;
    SumAgree(depths.Keys, c'.Queues(), depths);
  }

  /** A freshly set instance stays listed through a heartbeat iff the heartbeat is another
      runner's or reports it; a heartbeat captured before the start drops it. */
  lemma FreshInstanceSurvivesIff(c: Cache, f: FuncId, i: Id, r: Addr, a: Addr, depths: map<Id, Depth>, m: Metrics)
    ensures i in c.SetInstance(f, i, r, 0).Heartbeat(a, depths, m).Instances(f) <==> a != r || i in depths
  {
    ApplyAt(c.SetInstance(f, i, r, 0), Beat(a, depths, m), i);
  }

  // ---- which function an instance is listed for

  /** The operation removes the instance: its runner stops reporting it or is evicted. */
  predicate Drops(c: Cache, op: Op, i: Id) {
    i in c.entries && c.entries[i].runner == op.r && !op.Set? && i !in Reported(op)
  }

  predicate Names(op: Op, i: Id) {
    op.Set? && op.i == i
  }

  /** From position k on the instance has been listed for f without interruption. */
  ghost predicate ListedSince(ops: seq<Op>, k: nat, i: Id, f: FuncId) {
    && k < |ops|
    && Names(ops[k], i) && ops[k].f == f
    && forall j :: k < j < |ops| ==> !Names(ops[j], i) && !Drops(ApplyAll(EMPTY, ops[..j]), ops[j], i)
  }

  /** The last operation extends, starts or ends a listing. */
  lemma ListedStep(ops: seq<Op>, op: Op, i: Id, f: FuncId)
    ensures (exists k: nat :: ListedSince(ops + [op], k, i, f)) <==>
            if Names(op, i) then op.f == f
            else (exists k: nat :: ListedSince(ops, k, i, f)) && !Drops(ApplyAll(EMPTY, ops), op, i)
  {
    var all, n := ops + [op], |ops|;
    assert all[n] == op && all[..n] == ops;
    assert forall j :: 0 <= j <= n ==> all[..j] == ops[..j];
    if Names(op, i) && op.f == f {
      assert ListedSince(all, n, i, f);
    }
    if k: nat :| ListedSince(ops, k, i, f) {
      if !Names(op, i) && !Drops(ApplyAll(EMPTY, ops), op, i) {
        assert ListedSince(all, k, i, f);
      }
    }
    if k: nat :| ListedSince(all, k, i, f) {
      if k < n {
        assert !Names(all[n], i);
        assert forall j :: k < j < n ==> all[j] == ops[j];
        assert ListedSince(ops, k, i, f);
      }
    }
  }

  lemma ListedAfter(c: Cache, op: Op, i: Id, f: FuncId)
    ensures i in Apply(c, op).Instances(f) <==>
            if Names(op, i) then op.f == f else i in c.Instances(f) && !Drops(c, op, i)
  {
    ApplyAt(c, op, i);
  }

  /** Over every run, an instance is listed for f iff its last SetInstance was for f and
      nothing has dropped it since. */
  lemma {:induction false} ListedIff(ops: seq<Op>, i: Id, f: FuncId)
    ensures i in ApplyAll(EMPTY, ops).Instances(f) <==> exists k: nat :: ListedSince(ops, k, i, f)
  {
    if ops == [] {
    } else {
      var before, op := ops[..|ops| - 1], ops[|ops| - 1];
      ListedIff(before, i, f);
      ListedStep(before, op, i, f);
      assert ops == before + [op];
      ListedAfter(ApplyAll(EMPTY, before), op, i, f);
    }
  }

  /** An id that is out of the cache may be reported again and then counts in its
      runner's load, but it stays unlisted until a SetInstance names it. */
  lemma {:induction false} ReportedAgainStaysUnlisted(c: Cache, ops: seq<Op>, i: Id)
    requires c.FuncOf(i) == None
    requires forall k :: 0 <= k < |ops| ==> !Names(ops[k], i)
    ensures ApplyAll(c, ops).FuncOf(i) == None
    ensures forall f :: i !in ApplyAll(c, ops).Instances(f)
    ensures ops != [] && i in Reported(ops[|ops| - 1]) ==>
              i in ApplyAll(c, ops).InstancesOn(ops[|ops| - 1].r)
  {
    if ops == [] {
    } else {
      ReportedAgainStaysUnlisted(c, ops[..|ops| - 1], i);
    }
  }

  // ---- which metrics a runner has

  predicate IsBeat(op: Op, r: Addr) {
    op.Beat? && op.r == r
  }

  /** The k-th update is the runner's last heartbeat, it carried the metrics, and the runner
      has not been evicted since. */
  ghost predicate LastBeat(ops: seq<Op>, k: nat, r: Addr, m: Metrics) {
    && k < |ops| && IsBeat(ops[k], r) && ops[k].m == m
    && forall j :: k < j < |ops| ==> ops[j].r != r || ops[j].Set?
  }

  lemma LastBeatStep(ops: seq<Op>, op: Op, r: Addr, m: Metrics)
    ensures (exists k: nat :: LastBeat(ops + [op], k, r, m)) <==>
            if op.r == r && !op.Set? then op.Beat? && op.m == m else exists k: nat :: LastBeat(ops, k, r, m)
  {
    var all, n := ops + [op], |ops|;
    if op.r == r && op.Beat? && op.m == m {
      assert LastBeat(all, n, r, m);
    }
    if k: nat :| LastBeat(ops, k, r, m) {
      if op.r != r || op.Set? {
        assert LastBeat(all, k, r, m);
      }
    }
    if k: nat :| LastBeat(all, k, r, m) {
      if k < n {
        assert all[n] == op;
        assert forall j :: k < j < n ==> all[j] == ops[j];
        assert LastBeat(ops, k, r, m);
      }
    }
  }

  /** Over every run, a runner's metrics are those of its last heartbeat, and it has none iff
      it has had no heartbeat since it was last evicted. */
  lemma {:induction false} MetricsIff(ops: seq<Op>, r: Addr, m: Metrics)
    ensures r in ApplyAll(EMPTY, ops).stats && ApplyAll(EMPTY, ops).stats[r] == m <==>
            exists k: nat :: LastBeat(ops, k, r, m)
  {
    if ops == [] {
    } else {
      var before, op := ops[..|ops| - 1], ops[|ops| - 1];
      MetricsIff(before, r, m);
      LastBeatStep(before, op, r, m);
      assert ops == before + [op];
    }
  }

  /** Over every run, a runner is known iff an update has named it since it was last evicted. */
  ghost predicate NamedSince(ops: seq<Op>, k: nat, r: Addr) {
    k < |ops| && ops[k].r == r && forall j :: k <= j < |ops| ==> ops[j].r != r || !ops[j].Drop?
  }

  lemma NamedStep(ops: seq<Op>, op: Op, r: Addr)
    ensures (exists k: nat :: NamedSince(ops + [op], k, r)) <==>
            if op.r == r then !op.Drop? else exists k: nat :: NamedSince(ops, k, r)
  {
    var all, n := ops + [op], |ops|;
    if op.r == r && !op.Drop? {
      assert NamedSince(all, n, r);
    }
    if k: nat :| NamedSince(ops, k, r) {
      if op.r != r {
        assert NamedSince(all, k, r);
      }
    }
    if k: nat :| NamedSince(all, k, r) {
      assert all[n] == op;
      if k < n {
        assert forall j :: k <= j < n ==> all[j] == ops[j];
        assert NamedSince(ops, k, r);
      }
    }
  }

  lemma {:induction false} KnownIff(ops: seq<Op>, r: Addr)
    ensures r in ApplyAll(EMPTY, ops).runners <==> exists k: nat :: NamedSince(ops, k, r)
  {
    if ops == [] {
    } else {
      var before, op := ops[..|ops| - 1], ops[|ops| - 1];
      KnownIff(before, r);
      NamedStep(before, op, r);
      assert ops == before + [op];
    }
  }

  // ---- where an instance is and how long its queue is

  /** The update places the instance on the runner with that queue length. */
  predicate Places(op: Op, i: Id, r: Addr, q: int) {
    (op.Set? && op.i == i && op.r == r && op.q == q) || (op.Beat? && op.r == r && i in op.depths && op.depths[i] == q)
  }

  predicate Touches(op: Op, i: Id) {
    Names(op, i) || i in Reported(op)
  }

  /** The k-th update is the last that set or reported the instance, and its runner has neither
      left it out of a heartbeat nor been evicted since. */
  ghost predicate PlacedSince(ops: seq<Op>, k: nat, i: Id, r: Addr, q: int) {
    && k < |ops| && Places(ops[k], i, r, q)
    && forall j :: k < j < |ops| ==> !Touches(ops[j], i) && (ops[j].r != r || ops[j].Set?)
  }

  lemma PlacedStep(ops: seq<Op>, op: Op, i: Id, r: Addr, q: int)
    ensures (exists k: nat :: PlacedSince(ops + [op], k, i, r, q)) <==>
            if Touches(op, i) then Places(op, i, r, q)
            else (exists k: nat :: PlacedSince(ops, k, i, r, q)) && (op.r != r || op.Set?)
  {
    var all, n := ops + [op], |ops|;
    assert all[n] == op;
    if Touches(op, i) && Places(op, i, r, q) {
      assert PlacedSince(all, n, i, r, q);
    }
    if k: nat :| PlacedSince(ops, k, i, r, q) {
      if !Touches(op, i) && (op.r != r || op.Set?) {
        assert PlacedSince(all, k, i, r, q);
      }
    }
    if k: nat :| PlacedSince(all, k, i, r, q) {
      if k < n {
        assert !Touches(all[n], i);
        assert forall j :: k < j < n ==> all[j] == ops[j];
        assert PlacedSince(ops, k, i, r, q);
      }
    }
  }

  /** Over every run, an instance is on a runner with a queue length iff the last update that
      set or reported it said so and nothing has dropped it since. */
  lemma {:induction false} PlacedIff(ops: seq<Op>, i: Id, r: Addr, q: int)
    ensures var c := ApplyAll(EMPTY, ops);
            i in c.entries && c.entries[i].runner == r && c.entries[i].queue == q <==>
            exists k: nat :: PlacedSince(ops, k, i, r, q)
  {
    if ops == [] {
    } else {
      var before, op := ops[..|ops| - 1], ops[|ops| - 1];
      PlacedIff(before, i, r, q);
      PlacedStep(before, op, i, r, q);
      assert ops == before + [op];
    }
  }

  // ---- polling all runners

  /** What a poll applies: one heartbeat or one eviction for each of several runners. */
  ghost predicate IsPoll(acts: seq<Op>) {
    && (forall k :: 0 <= k < |acts| ==> !acts[k].Set?)
    && (forall j, k :: 0 <= j < k < |acts| ==> acts[j].r != acts[k].r)
  }

  /** The two answers do not compete for an instance. */
  predicate Compatible(c: Cache, x: Op, y: Op) {
    forall i | i in Reported(x) ::
      i !in Reported(y) && (i in c.entries && c.entries[i].runner == y.r ==> c.entries[i].func == None)
  }

  ghost predicate Independent(c: Cache, acts: seq<Op>) {
    forall j, k :: 0 <= j < |acts| && 0 <= k < |acts| && j != k ==> Compatible(c, acts[j], acts[k])
  }

  ghost predicate OrderIrrelevant(c: Cache, acts: seq<Op>) {
    forall order: seq<Op> | multiset(order) == multiset(acts) :: ApplyAll(c, order) == ApplyAll(c, acts)
  }

  lemma CommuteAt(c: Cache, x: Op, y: Op, i: Id)
    requires !x.Set? && !y.Set? && x.r != y.r
    requires Compatible(c, x, y) && Compatible(c, y, x)
    ensures At(Apply(Apply(c, x), y), i) == At(Apply(Apply(c, y), x), i)
  {
    ApplyAt(c, x, i);
    ApplyAt(Apply(c, x), y, i);
    ApplyAt(c, y, i);
    ApplyAt(Apply(c, y), x, i);
  }

  lemma CommuteRunners(c: Cache, x: Op, y: Op)
    requires !x.Set? && !y.Set? && x.r != y.r
    ensures Apply(Apply(c, x), y).runners == Apply(Apply(c, y), x).runners
    ensures Apply(Apply(c, x), y).stats == Apply(Apply(c, y), x).stats
  {
    if x.Beat? && y.Beat? {
      assert c.stats[x.r := x.m][y.r := y.m] == c.stats[y.r := y.m][x.r := x.m];
    } else if x.Beat? {
      assert c.stats[x.r := x.m] - {y.r} == (c.stats - {y.r})[x.r := x.m];
    } else if y.Beat? {
      assert c.stats[y.r := y.m] - {x.r} == (c.stats - {x.r})[y.r := y.m];
    } else {
      assert c.stats - {x.r} - {y.r} == c.stats - {y.r} - {x.r};
    }
  }

  lemma Commute(c: Cache, x: Op, y: Op)
    requires !x.Set? && !y.Set? && x.r != y.r
    requires Compatible(c, x, y) && Compatible(c, y, x)
    ensures Apply(Apply(c, x), y) == Apply(Apply(c, y), x)
  {
    forall i
      ensures At(Apply(Apply(c, x), y), i) == At(Apply(Apply(c, y), x), i)
    {
      CommuteAt(c, x, y, i);
    }
    SameEntries(Apply(Apply(c, x), y), Apply(Apply(c, y), x));
    CommuteRunners(c, x, y);
  }

  /** Applying one answer leaves the others compatible. */
  lemma CompatibleAfter(c: Cache, z: Op, x: Op, y: Op)
    requires !z.Set? && z.r != x.r && z.r != y.r
    requires Compatible(c, x, y) && Compatible(c, z, x) && Compatible(c, z, y)
    ensures Compatible(Apply(c, z), x, y)
  {
  }

  lemma IndependentAfter(c: Cache, acts: seq<Op>)
    requires acts != [] && IsPoll(acts) && Independent(c, acts)
    ensures IsPoll(acts[1..]) && Independent(Apply(c, acts[0]), acts[1..])
  {
    var rest := acts[1..];
    forall j, k | 0 <= j < |rest| && 0 <= k < |rest| && j != k
      ensures Compatible(Apply(c, acts[0]), rest[j], rest[k])
    {
      assert rest[j] == acts[j + 1] && rest[k] == acts[k + 1];
      CompatibleAfter(c, acts[0], acts[j + 1], acts[k + 1]);
    }
  }

  lemma SkipAfterFirst(s: seq<Op>, k: nat)
    requires 0 < k < |s|
    ensures s[..k] + s[k + 1..] == [s[0]] + (s[1..][..k - 1] + s[1..][k..])
  {
  }

  lemma SwapThenRest(c: Cache, x: Op, y: Op, others: seq<Op>)
    requires Apply(Apply(c, x), y) == Apply(Apply(c, y), x)
    ensures ApplyAll(Apply(Apply(c, x), y), others) == ApplyAll(Apply(c, y), [x] + others)
  {
    ApplyAllFirst(Apply(c, y), x, others);
  }

  /** An answer can be moved in front of all others. */
  lemma {:induction false} MoveToFront(c: Cache, acts: seq<Op>, k: nat)
    requires k < |acts| && IsPoll(acts) && Independent(c, acts)
    ensures ApplyAll(c, acts) == ApplyAll(Apply(c, acts[k]), acts[..k] + acts[k + 1..])
    decreases k
  {
    var x, rest := acts[0], acts[1..];
    assert ApplyAll(c, acts) == ApplyAll(Apply(c, x), rest) by {
      assert acts == [x] + rest;
      ApplyAllFirst(c, x, rest);
    }
    if k == 0 {
      assert acts[..k] + acts[k + 1..] == rest;
    } else {
      var y, others := acts[k], rest[..k - 1] + rest[k..];
      assert ApplyAll(Apply(c, x), rest) == ApplyAll(Apply(Apply(c, x), y), others) by {
        IndependentAfter(c, acts);
        MoveToFront(Apply(c, x), rest, k - 1);
      }
      assert ApplyAll(Apply(Apply(c, x), y), others) == ApplyAll(Apply(c, y), [x] + others) by {
        Commute(c, x, y);
        SwapThenRest(c, x, y, others);
      }
      SkipAfterFirst(acts, k);
    }
  }

  lemma PollReordered(acts: seq<Op>, order: seq<Op>)
    requires multiset(acts) == multiset(order) && IsPoll(acts)
    ensures |acts| == |order| && IsPoll(order)
    ensures forall x :: x in order <==> x in acts
  {
    assert |acts| == |multiset(acts)| == |multiset(order)| == |order|;
    forall x
      ensures x in order <==> x in acts
    {
      assert x in multiset(order) <==> x in multiset(acts);
    }
    forall k | 0 <= k < |order|
      ensures !order[k].Set?
    {
      assert order[k] in acts;
    }
    forall j, k | 0 <= j < k < |order|
      ensures order[j].r != order[k].r
    {
      PollDistinct(acts);
      if order[j] == order[k] {
        TwiceInMultiset(order, j, k);
        assert false;
      }
      assert order[j] in acts && order[k] in acts;
    }
  }

  lemma IndependentReordered(c: Cache, acts: seq<Op>, order: seq<Op>)
    requires multiset(acts) == multiset(order) && IsPoll(acts) && Independent(c, acts)
    ensures |acts| == |order| && IsPoll(order) && Independent(c, order)
  {
    PollReordered(acts, order);
    forall j, k | 0 <= j < |order| && 0 <= k < |order| && j != k
      ensures Compatible(c, order[j], order[k])
    {
      assert order[j] in acts && order[k] in acts;
      assert order[j].r != order[k].r;
    }
  }

  lemma {:induction false} PollDistinct(acts: seq<Op>)
    requires IsPoll(acts)
    ensures forall x :: multiset(acts)[x] <= 1
  {
    if acts == [] {
    } else {
      var n := |acts| - 1;
      PollDistinct(acts[..n]);
      assert acts == acts[..n] + [acts[n]];
      assert acts[n] !in acts[..n];
    }
  }

  /** Compatible answers give the same cache in every completion order. */
  lemma {:induction false} EveryOrderAgrees(c: Cache, acts: seq<Op>, order: seq<Op>)
    requires IsPoll(acts) && Independent(c, acts) && multiset(order) == multiset(acts)
    ensures ApplyAll(c, order) == ApplyAll(c, acts)
    decreases |acts|
  {
    IndependentReordered(c, acts, order);
    if acts == [] {
    } else {
      var x, rest := acts[0], acts[1..];
      assert acts == [x] + rest;
      assert x in multiset(order);
      var k :| 0 <= k < |order| && order[k] == x;
      var others := order[..k] + order[k + 1..];
      assert multiset(others) == multiset(rest) by {
        RemoveAt(order, k);
      }
      assert ApplyAll(c, order) == ApplyAll(Apply(c, x), others) by {
        MoveToFront(c, order, k);
      }
      assert ApplyAll(c, acts) == ApplyAll(Apply(c, x), rest) by {
        ApplyAllFirst(c, x, rest);
      }
      IndependentAfter(c, acts);
      EveryOrderAgrees(Apply(c, x), rest, others);
    }
  }

  /** Answers that neither report the instance nor own it leave its entry alone. */
  lemma {:induction false} Untouched(c: Cache, acts: seq<Op>, i: Id)
    requires i in c.entries
    requires forall k :: 0 <= k < |acts| ==>
               !acts[k].Set? && i !in Reported(acts[k]) && acts[k].r != c.entries[i].runner
    ensures i in ApplyAll(c, acts).entries && ApplyAll(c, acts).entries[i] == c.entries[i]
  {
    if acts == [] {
    } else {
      Untouched(c, acts[..|acts| - 1], i);
    }
  }

  /** When x reports a listed instance that y's runner owned and only x reports it, the
      instance keeps its function if y comes last and loses it if x comes last. */
  lemma TakeoverOrdersDiffer(c: Cache, rest: seq<Op>, x: Op, y: Op, i: Id)
    requires IsPoll(rest + [x, y])
    requires i in Reported(x) && i !in Reported(y) && forall k :: 0 <= k < |rest| ==> i !in Reported(rest[k])
    requires i in c.entries && c.entries[i].runner == y.r && c.entries[i].func != None
    ensures At(ApplyAll(c, rest + [x, y]), i) != At(ApplyAll(c, rest + [y, x]), i)
  {
    var all := rest + [x, y];
    assert all[|rest|] == x && all[|rest| + 1] == y;
    var mid := ApplyAll(c, rest);
    ApplyTwo(c, rest, x, y);
    ApplyTwo(c, rest, y, x);
    forall k | 0 <= k < |rest|
      ensures !rest[k].Set? && i !in Reported(rest[k]) && rest[k].r != c.entries[i].runner
    {
      assert rest[k] == all[k];
    }
    Untouched(c, rest, i);
    ApplyAt(mid, x, i);
    ApplyAt(Apply(mid, x), y, i);
    ApplyAt(mid, y, i);
    ApplyAt(Apply(mid, y), x, i);
  }

  lemma ApplyTwo(c: Cache, rest: seq<Op>, x: Op, y: Op)
    ensures ApplyAll(c, rest + [x, y]) == Apply(Apply(ApplyAll(c, rest), x), y)
  {
    ApplyAllConcat(c, rest, [x, y]);
    assert [x, y] == [x] + [y];
    ApplyAllFirst(ApplyAll(c, rest), x, [y]);
    ApplyAllFirst(Apply(ApplyAll(c, rest), x), y, []);
    assert [y] + [] == [y];
  }

  /** Two positions can be moved to the end, in either order. */
  lemma PullOut(acts: seq<Op>, j: nat, k: nat) returns (rest: seq<Op>)
    requires j < k < |acts|
    ensures multiset(rest + [acts[j], acts[k]]) == multiset(acts) == multiset(rest + [acts[k], acts[j]])
  {
    var without := acts[..k] + acts[k + 1..];
    rest := without[..j] + without[j + 1..];
    RemoveAt(acts, k);
    RemoveAt(without, j);
    PutBack(rest, acts[j], acts[k], multiset(acts));
    SwapLast(rest, acts[j], acts[k]);
  }

  /** A poll gives the same cache for every completion order of the per-runner tasks iff
      the answers are pairwise compatible. */
  lemma PollOrderIrrelevantIff(c: Cache, acts: seq<Op>)
    requires IsPoll(acts)
    ensures OrderIrrelevant(c, acts) <==> Independent(c, acts)
  {
    if Independent(c, acts) {
      forall order: seq<Op> | multiset(order) == multiset(acts)
        ensures ApplyAll(c, order) == ApplyAll(c, acts)
      {
        EveryOrderAgrees(c, acts, order);
      }
    } else {
      var j, k :| 0 <= j < |acts| && 0 <= k < |acts| && j != k && !Compatible(c, acts[j], acts[k]);
      CompetitionShows(c, acts, j, k);
    }
  }

  lemma DifferenceShows(c: Cache, acts: seq<Op>, p: seq<Op>, q: seq<Op>, i: Id)
    requires multiset(p) == multiset(acts) == multiset(q)
    requires At(ApplyAll(c, p), i) != At(ApplyAll(c, q), i)
    ensures !OrderIrrelevant(c, acts)
  {
  }

  lemma BothReportShows(c: Cache, acts: seq<Op>, a: nat, b: nat, i: Id)
    requires IsPoll(acts) && a < b < |acts| && i in Reported(acts[a]) && i in Reported(acts[b])
    ensures !OrderIrrelevant(c, acts)
  {
    var x, y := acts[a], acts[b];
    var rest := PullOut(acts, a, b);
    var mid := ApplyAll(c, rest);
    ApplyTwo(c, rest, x, y);
    ApplyTwo(c, rest, y, x);
    ApplyAt(Apply(mid, x), y, i);
    ApplyAt(Apply(mid, y), x, i);
    DifferenceShows(c, acts, rest + [x, y], rest + [y, x], i);
  }

  lemma TakeoverShows(c: Cache, acts: seq<Op>, x: Op, y: Op, rest: seq<Op>, i: Id)
    requires IsPoll(acts) && multiset(rest + [x, y]) == multiset(acts) == multiset(rest + [y, x])
    requires i in Reported(x) && forall z :: z in acts && z != x ==> i !in Reported(z)
    requires i in c.entries && c.entries[i].runner == y.r && c.entries[i].func != None && x != y
    ensures !OrderIrrelevant(c, acts)
  {
    var all := rest + [x, y];
    PollReordered(acts, all);
    forall k | 0 <= k < |rest|
      ensures i !in Reported(rest[k])
    {
      assert rest[k] == all[k] && all[k] in acts && all[|rest|] == x;
    }
    assert all[|rest| + 1] == y && y in acts;
    TakeoverOrdersDiffer(c, rest, x, y, i);
    DifferenceShows(c, acts, rest + [x, y], rest + [y, x], i);
  }

  lemma CompetitionShows(c: Cache, acts: seq<Op>, j: nat, k: nat)
    requires IsPoll(acts)
    requires j < |acts| && k < |acts| && j != k && !Compatible(c, acts[j], acts[k])
    ensures !OrderIrrelevant(c, acts)
  {
    if a, b, i :| 0 <= a < b < |acts| && i in Reported(acts[a]) && i in Reported(acts[b]) {
      BothReportShows(c, acts, a, b, i);
    } else {
      var i :| i in Reported(acts[j]) &&
        !(i !in Reported(acts[k]) && (i in c.entries && c.entries[i].runner == acts[k].r ==> c.entries[i].func == None));
      var rest: seq<Op>;
      if j < k {
        rest := PullOut(acts, j, k);
      } else {
        rest := PullOut(acts, k, j);
      }
      TakeoverShows(c, acts, acts[j], acts[k], rest, i);
    }
  }

  // ---- what a poll leaves of each runner

  /** Answers of other runners change nothing of a runner but take instances they report. */
  lemma {:induction false} OthersLeave(c: Cache, acts: seq<Op>, r: Addr)
    requires forall k :: 0 <= k < |acts| ==> !acts[k].Set? && acts[k].r != r
    ensures var e := ApplyAll(c, acts);
            && (r in e.runners <==> r in c.runners) && (r in e.stats <==> r in c.stats)
            && (r in e.stats ==> e.stats[r] == c.stats[r])
            && (forall i :: i in e.InstancesOn(r) ==> i in c.InstancesOn(r) && e.entries[i] == c.entries[i])
            && (forall i :: i in c.InstancesOn(r) && (forall k :: 0 <= k < |acts| ==> i !in Reported(acts[k])) ==>
                  i in e.InstancesOn(r))
  {
    if acts == [] {
    } else {
      OthersLeave(c, acts[..|acts| - 1], r);
    }
  }

  /** The runner has been evicted: nothing of it is left. */
  ghost predicate Absent(c: Cache, r: Addr) {
    r !in c.runners && r !in c.stats && c.InstancesOn(r) == {}
  }

  /** The runner has the metrics, and no instances but reported ones, with the reported queues. */
  ghost predicate Present(c: Cache, r: Addr, depths: map<Id, Depth>, m: Metrics) {
    && r in c.runners && r in c.stats && c.stats[r] == m
    && (forall i :: i in c.InstancesOn(r) ==> i in depths && c.entries[i].queue == depths[i])
  }

  lemma OwnAnswer(c: Cache, act: Op)
    requires !act.Set?
    ensures var e := Apply(c, act);
            && (act.Drop? ==> Absent(e, act.r))
            && (act.Beat? ==> Present(e, act.r, act.depths, act.m) && e.InstancesOn(act.r) == act.depths.Keys)
  {
  }

  /** One answer, and the others after it. */
  lemma OutcomeAfter(c: Cache, act: Op, after: seq<Op>)
    requires !act.Set? && forall j :: 0 <= j < |after| ==> !after[j].Set? && after[j].r != act.r
    ensures var e := ApplyAll(Apply(c, act), after);
            && (act.Drop? ==> Absent(e, act.r))
            && (act.Beat? ==> Present(e, act.r, act.depths, act.m))
            && (act.Beat? ==> forall i :: i in act.depths && (forall j :: 0 <= j < |after| ==> i !in Reported(after[j])) ==>
                  i in e.InstancesOn(act.r))
  {
    OwnAnswer(c, act);
    OthersLeave(Apply(c, act), after, act.r);
  }

  /** After a poll, in whichever order its tasks finish: a runner that was silent is gone; one
      that answered is known with its metrics and only reported instances, and with all of
      those that no other runner reported too. */
  lemma PollOutcome(c: Cache, acts: seq<Op>, k: nat)
    requires IsPoll(acts) && k < |acts|
    ensures var e, act := ApplyAll(c, acts), acts[k];
            && (act.Drop? ==> Absent(e, act.r))
            && (act.Beat? ==> Present(e, act.r, act.depths, act.m))
            && (act.Beat? ==> forall i :: i in act.depths && (forall j :: 0 <= j < |acts| && j != k ==> i !in Reported(acts[j])) ==>
                  i in e.InstancesOn(act.r))
  {
    var act, before, after := acts[k], acts[..k], acts[k + 1..];
    SplitAt(c, acts, k);
    OutcomeAfter(ApplyAll(c, before), act, after);
    forall i | act.Beat? && i in act.depths && forall j :: 0 <= j < |acts| && j != k ==> i !in Reported(acts[j])
      ensures i in ApplyAll(c, acts).InstancesOn(act.r)
    {
      forall j | 0 <= j < |after|
        ensures i !in Reported(after[j])
      {
        assert after[j] == acts[k + 1 + j];
      }
    }
  }

  lemma SplitAt(c: Cache, acts: seq<Op>, k: nat)
    requires k < |acts|
    ensures ApplyAll(c, acts) == ApplyAll(Apply(ApplyAll(c, acts[..k]), acts[k]), acts[k + 1..])
  {
    ApplyAllConcat(c, acts[..k], [acts[k]] + acts[k + 1..]);
    ApplyAllFirst(ApplyAll(c, acts[..k]), acts[k], acts[k + 1..]);
    assert acts[..k] + ([acts[k]] + acts[k + 1..]) == acts;
  }
}
