/** The commander's operations (pkg/commander/service.go), run one at a time over the
    in-memory cache and the two database tables. What the network and the database answer
    is a parameter. */
module Commander {
  import opened Prelude
  import opened CacheSpec
  import opened CacheLaws
  import opened InMemoryCaching
  import opened NaiveRouting

  datatype Result<+T> = Ok(value: T) | Err(error: Error)

  datatype Error =
    | DatabaseFailed
    | RunnerSilent
    | NoRunnerAvailable
    | BadFunctionId
    | FunctionNotFound
    | PrepareFailed
    | RouterFailed

  /** What polling one runner brings: no usable answer, or a heartbeat. */
  datatype Answer = Silent | Alive(depths: map<Id, Depth>, m: Metrics)

  function Action(r: Addr, a: Answer): Op {
    if a.Silent? then Drop(r) else Beat(r, a.depths, a.m)
  }

  /** The order lists exactly one action for each runner. */
  ghost predicate Lists(order: seq<Op>, runners: set<Addr>, answers: map<Addr, Answer>) {
    && IsPoll(order)
    && (forall k :: 0 <= k < |order| ==>
          order[k].r in runners && order[k] == Action(order[k].r, Get(answers, order[k].r, Silent)))
    && (forall r :: r in runners ==> Action(r, Get(answers, r, Silent)) in order)
  }

  lemma ListsNext(order: seq<Op>, done: set<Addr>, r: Addr, answers: map<Addr, Answer>)
    requires Lists(order, done, answers) && r !in done
    ensures Lists(order + [Action(r, Get(answers, r, Silent))], done + {r}, answers)
  {
    var act := Action(r, Get(answers, r, Silent));
    var longer := order + [act];
    forall a | a in done + {r}
      ensures Action(a, Get(answers, a, Silent)) in longer
    {
      assert longer[|order|] == act;
      if a != r {
        assert Action(a, Get(answers, a, Silent)) in order;
      }
    }
  }

  lemma ListingsAreReorderings(p: seq<Op>, q: seq<Op>, runners: set<Addr>, answers: map<Addr, Answer>)
    requires Lists(p, runners, answers) && Lists(q, runners, answers)
    ensures multiset(p) == multiset(q)
  {
    PollDistinct(p);
    PollDistinct(q);
    forall x
      ensures x in multiset(p) <==> x in multiset(q)
    {
      assert x in p <==> x.r in runners && x == Action(x.r, Get(answers, x.r, Silent));
      assert x in q <==> x.r in runners && x == Action(x.r, Get(answers, x.r, Silent));
    }
    forall x
      ensures multiset(p)[x] == multiset(q)[x]
    {
      assert x in multiset(p) <==> x in multiset(q);
    }
  }

  lemma ListingsAgree(c: Cache, order: seq<Op>, runners: set<Addr>, answers: map<Addr, Answer>)
    requires Lists(order, runners, answers)
    ensures forall listing :: Lists(listing, runners, answers) && Independent(c, listing) ==>
              ApplyAll(c, listing) == ApplyAll(c, order)
  {
    forall listing | Lists(listing, runners, answers) && Independent(c, listing)
      ensures ApplyAll(c, listing) == ApplyAll(c, order)
    {
      ListingsAreReorderings(listing, order, runners, answers);
      EveryOrderAgrees(c, listing, order);
    }
  }

  function Reports(answer: Answer): set<Id> {
    if answer.Silent? then {} else answer.depths.Keys
  }

  /** What a poll leaves of a runner: nothing if it was silent; else its metrics and reported
      instances only, among them all that no other polled runner reported. */
  ghost predicate PolledAs(now: Cache, polled: set<Addr>, answers: map<Addr, Answer>, r: Addr) {
    match Get(answers, r, Silent)
    case Silent => Absent(now, r)
    case Alive(depths, m) =>
      && Present(now, r, depths, m)
      && forall i :: i in depths && (forall a :: a in polled && a != r ==> i !in Reports(Get(answers, a, Silent))) ==>
           i in now.InstancesOn(r)
  }

  lemma ListedAs(c: Cache, order: seq<Op>, polled: set<Addr>, answers: map<Addr, Answer>, r: Addr)
    requires Lists(order, polled, answers) && r in polled
    ensures PolledAs(ApplyAll(c, order), polled, answers, r)
  {
    var act := Action(r, Get(answers, r, Silent));
    var k :| 0 <= k < |order| && order[k] == act;
    PollOutcome(c, order, k);
    forall j | 0 <= j < |order| && j != k
      ensures order[j].r in polled && order[j].r != r && Reported(order[j]) == Reports(Get(answers, order[j].r, Silent))
    {
    }
  }

  // ---- function ids

  predicate IsDigit(c: char) {
    '0' <= c <= '9'
  }

  predicate AllDigits(s: string) {
    forall k :: 0 <= k < |s| ==> IsDigit(s[k])
  }

  function Digits(s: string): int
    requires AllDigits(s)
  {
    if s == "" then 0 else 10 * Digits(s[..|s| - 1]) + (s[|s| - 1] as int - '0' as int)
  }

  /** strconv.ParseInt(s, 10, 0): an optional sign, at least one digit, 64-bit range. */
  function ParseInt(s: string): Option<int> {
    var negative := s != "" && s[0] == '-';
    var body := if s != "" && (s[0] == '-' || s[0] == '+') then s[1..] else s;
    if body == "" || !AllDigits(body) then None
    else
      var n := if negative then -Digits(body) else Digits(body);
      if -0x8000_0000_0000_0000 <= n <= MAX_INT then Some(n) else None
  }

  /** The decimal rendering of a function id. */
  function Show(n: nat): string {
    if n < 10 then ['0' + n as char] else Show(n / 10) + ['0' + (n % 10) as char]
  }

  lemma {:induction false} ShowDigits(n: nat)
    ensures Show(n) != "" && AllDigits(Show(n)) && Digits(Show(n)) == n
  {
    var last := '0' + (n % 10) as char;
    if n < 10 {
      assert Show(n)[..0] == "" && Digits("") == 0;
    } else {
      ShowDigits(n / 10);
      assert Show(n)[..|Show(n)| - 1] == Show(n / 10);
    }
  }

  /** Every id the database can hand out is read back from its rendering. */
  lemma ParseShow(n: nat)
    ensures ParseInt(Show(n)) == if n <= 9223372036854775807 then Some(n) else None
    ensures var r := ParseInt("-" + Show(n)); if n <= 9223372036854775808 then r.Some? && r.value + n == 0 else r.None?
  {
    ShowDigits(n);
    assert IsDigit(Show(n)[0]);
    assert ("-" + Show(n))[1..] == Show(n);
  }

  function Zeros(n: nat): string {
    seq(n, _ => '0')
  }

  lemma {:induction false} DigitsConcat(a: string, b: string)
    requires AllDigits(a) && AllDigits(b) && Digits(a) == 0
    ensures AllDigits(a + b) && Digits(a + b) == Digits(b)
    decreases |b|
  {
    if b == "" {
      assert a + b == a;
    } else {
      DigitsConcat(a, b[..|b| - 1]);
      assert (a + b)[..|a + b| - 1] == a + b[..|b| - 1];
    }
  }

  lemma {:induction false} ZerosAreNothing(n: nat)
    ensures AllDigits(Zeros(n)) && Digits(Zeros(n)) == 0
  {
    if n == 0 {
    } else {
      ZerosAreNothing(n - 1);
      assert Zeros(n)[..n - 1] == Zeros(n - 1);
    }
  }

  /** A string of digits is the rendering of its value after some zeros. */
  lemma {:induction false} DigitsRendered(s: string) returns (zeros: nat)
    requires s != "" && AllDigits(s)
    ensures Digits(s) >= 0 && s == Zeros(zeros) + Show(Digits(s))
  {
    var front, last := s[..|s| - 1], s[|s| - 1];
    assert s == front + [last];
    if front == "" {
      zeros := 0;
    } else {
      zeros := DigitsRendered(front);
      var d := last as int - '0' as int;
      assert Digits(s) == 10 * Digits(front) + d;
      assert ['0' + d as char] == [last];
      if Digits(front) == 0 {
        assert Show(0) == "0";
        zeros := zeros + 1;
      } else {
        assert Show(Digits(s)) == Show(Digits(front)) + [last];
      }
    }
  }

  /** A number as it may be written: a sign, some zeros and its rendering. */
  datatype Numeral = Numeral(sign: string, zeros: nat, m: nat) {
    predicate Ok() {
      sign == "" || sign == "+" || sign == "-"
    }

    function Text(): string {
      sign + (Zeros(zeros) + Show(m))
    }

    function Value(): int {
      var v: int := m;
      if sign == "-" then -v else v
    }
  }

  lemma ReadAsNumeral(s: string, n: int) returns (x: Numeral)
    requires ParseInt(s) == Some(n)
    ensures x.Ok() && s == x.Text() && n == x.Value()
  {
    if s != "" && (s[0] == '-' || s[0] == '+') {
      var zeros := DigitsRendered(s[1..]);
      x := Numeral(s[..1], zeros, Digits(s[1..]));
      assert s == s[..1] + s[1..];
    } else {
      var zeros := DigitsRendered(s);
      x := Numeral("", zeros, Digits(s));
      assert s == "" + s;
    }
  }

  lemma BodyIsRead(sign: string, body: string)
    requires body != "" && AllDigits(body) && (sign == "" || sign == "+" || sign == "-")
    ensures var n := if sign == "-" then -Digits(body) else Digits(body);
            ParseInt(sign + body) == if -0x8000_0000_0000_0000 <= n <= MAX_INT then Some(n) else None
  {
    assert IsDigit(body[0]);
    if sign == "" {
      assert sign + body == body;
    } else {
      assert (sign + body)[1..] == body;
    }
  }

  lemma NumeralIsRead(x: Numeral)
    requires x.Ok() && -0x8000_0000_0000_0000 <= x.Value() <= MAX_INT
    ensures ParseInt(x.Text()) == Some(x.Value())
  {
    ShowDigits(x.m);
    ZerosAreNothing(x.zeros);
    DigitsConcat(Zeros(x.zeros), Show(x.m));
    BodyIsRead(x.sign, Zeros(x.zeros) + Show(x.m));
  }

  /** Exactly the optionally signed decimal numbers of 64 bits are read, each with its value. */
  lemma ParseIntIff(s: string, n: int)
    ensures ParseInt(s) == Some(n) <==>
            -9223372036854775808 <= n <= 9223372036854775807 &&
            exists x: Numeral :: x.Ok() && s == x.Text() && n == x.Value()
  {
    if ParseInt(s) == Some(n) {
      var x := ReadAsNumeral(s, n);
    }
    if -9223372036854775808 <= n <= 9223372036854775807 {
      if x: Numeral :| x.Ok() && s == x.Text() && n == x.Value() {
        NumeralIsRead(x);
      }
    }
  }

  // ---- what a poll of one runner does

  /** Entries of other instances, and what is known of other runners, have not changed. */
  ghost predicate RestSame(was: Cache, now: Cache, r: Addr, ids: set<Id>) {
    && now.runners - {r} == was.runners - {r} && now.stats - {r} == was.stats - {r}
    && (forall i :: i !in ids ==>
          (i in now.entries <==> i in was.entries && was.entries[i].runner != r) &&
          (i in now.entries ==> now.entries[i] == was.entries[i]))
  }

  /** The runner is out of the cache with all its instances. */
  ghost predicate Evicted(was: Cache, now: Cache, r: Addr) {
    Absent(now, r) && RestSame(was, now, r, {})
  }

  /** The runner has exactly the reported instances, with the reported queues and the functions
      they had before, and the metrics. */
  ghost predicate Refreshed(was: Cache, now: Cache, r: Addr, depths: map<Id, Depth>, m: Metrics) {
    && Present(now, r, depths, m) && now.InstancesOn(r) == depths.Keys
    && (forall i :: i in depths ==> now.FuncOf(i) == was.FuncOf(i))
    && RestSame(was, now, r, depths.Keys)
  }

  class CommanderService {
    const cache: InMemoryCache
    const thresholds: Thresholds
    /** The runners table: address to id, both unique. */
    var runners: map<Addr, nat>
    var nextId: nat
    /** The functions table: id to stored path. */
    var functions: map<int, string>

    ghost predicate Valid()
      reads this, cache
    {
      && cache.Valid() && Named(cache.model)
      && cache.model.runners <= runners.Keys
      && "" !in runners
      && (forall a :: a in runners ==> runners[a] < nextId)
      && (forall a, b :: a in runners && b in runners && runners[a] == runners[b] ==> a == b)
    }

    constructor (cache: InMemoryCache, thresholds: Thresholds, functions: map<int, string>)
      requires cache.Valid() && cache.model == EMPTY
      ensures Valid() && this.cache == cache && runners == map[]
    {
      this.cache, this.thresholds := cache, thresholds;
      this.functions := functions;
      runners, nextId := map[], 0;
    }

    /** An address keeps its id; a new address is stored only if it answers a heartbeat. */
    method RegisterRunner(addr: Addr, readOk: bool, answered: bool, writeOk: bool) returns (res: Result<nat>)
      requires Valid() && (answered ==> addr != "")
      modifies `runners, `nextId
      ensures Valid()
      ensures res.Ok? ==> addr in runners && res.value == runners[addr]
      ensures forall a :: a in old(runners) ==> a in runners && runners[a] == old(runners)[a]
      ensures runners.Keys ==
              if readOk && answered && writeOk then old(runners).Keys + {addr} else old(runners).Keys
      ensures res.Ok? <==> readOk && (addr in old(runners) || (answered && writeOk))
    {
      if !readOk {
        return Err(DatabaseFailed);
      }
      if addr in runners {
        return Ok(runners[addr]);
      }
      res := PersistNewRunner(addr, answered, writeOk);
    }

    method PersistNewRunner(addr: Addr, answered: bool, writeOk: bool) returns (res: Result<nat>)
      requires Valid() && (answered ==> addr != "")
      modifies `runners, `nextId
      ensures Valid()
      ensures res.Ok? <==> answered && writeOk
      ensures res.Ok? ==> addr in runners && res.value == runners[addr]
      ensures forall a :: a in old(runners) ==> a in runners && runners[a] == old(runners)[a]
      ensures runners.Keys == if res.Ok? then old(runners).Keys + {addr} else old(runners).Keys
    {
      if !answered {
        return Err(RunnerSilent);
      }
      if !writeOk {
        return Err(DatabaseFailed);
      }
      if addr !in runners {
        runners, nextId := runners[addr := nextId], nextId + 1;
      }
      return Ok(runners[addr]);
    }

    method PollRunnerHeartbeat(r: Addr, answer: Answer)
      requires Valid() && r in runners
      modifies cache
      ensures Valid() && cache.model == Apply(old(cache.model), Action(r, answer))
      ensures answer.Silent? ==> Evicted(old(cache.model), cache.model, r)
      ensures answer.Alive? ==> Refreshed(old(cache.model), cache.model, r, answer.depths, answer.m)
    {
      CacheTablesOk();
      NamedIsClean(cache.model, Action(r, answer));
      if answer.Silent? {
        cache.RemoveRunner(r);
      } else {
        cache.UpsertRunnerHeartbeat(r, answer.depths, answer.m);
      }
    }

    /** The fan-out: one task for each runner, finishing in any order. */
    method RunPollTasks(answers: map<Addr, Answer>) returns (ghost order: seq<Op>)
      requires Valid()
      modifies cache
      ensures Valid()
      ensures Lists(order, runners.Keys, answers) && cache.model == ApplyAll(old(cache.model), order)
    {
      var done: set<Addr> := {};
      order := [];
      while runners.Keys - done != {}
        invariant done <= runners.Keys && Valid()
        invariant Lists(order, done, answers) && cache.model == ApplyAll(old(cache.model), order)
        decreases runners.Keys - done
      {
        var r :| r in runners.Keys - done;
        PollRunnerHeartbeat(r, Get(answers, r, Silent));
        ListsNext(order, done, r, answers);
        ApplyAllConcat(old(cache.model), order, [Action(r, Get(answers, r, Silent))]);
        order := order + [Action(r, Get(answers, r, Silent))];
        done := done + {r};
      }
      forall r | r in runners.Keys
        ensures r in done
      {
        assert r !in runners.Keys - done;
      }
      assert done == runners.Keys;
    }

    /** When the answers are pairwise compatible, the poll leaves the same cache whichever
        order its tasks finish in. */
    method PollRunnerHeartbeats(readOk: bool, answers: map<Addr, Answer>) returns (ok: bool)
      requires Valid()
      modifies cache
      ensures Valid() && ok == readOk
      ensures !ok ==> cache.model == old(cache.model)
      ensures ok ==> exists order :: Lists(order, runners.Keys, answers) && cache.model == ApplyAll(old(cache.model), order)
      ensures ok ==> forall listing :: Lists(listing, runners.Keys, answers) && Independent(old(cache.model), listing) ==>
                       cache.model == ApplyAll(old(cache.model), listing)
      ensures ok ==> forall r :: r in runners ==> PolledAs(cache.model, runners.Keys, answers, r)
    {
      if !readOk {
        return false;
      }
      ghost var order := RunPollTasks(answers);
      ListingsAgree(old(cache.model), order, runners.Keys, answers);
      forall r | r in runners
        ensures PolledAs(cache.model, runners.Keys, answers, r)
      {
        ListedAs(old(cache.model), order, runners.Keys, answers, r);
      }
      return true;
    }

    /** What the runner replies to a prepare call: nothing, or the id of a started instance. */
    method PrepareInstance(f: FuncId, r: Addr, readOk: bool, reply: Option<Id>) returns (res: Result<Routing>)
      requires Valid() && r in runners
      modifies cache
      ensures Valid()
      ensures match res
              case Ok(w) => reply == Some(w.instance) && w.runner == r &&
                            cache.model == old(cache.model).SetInstance(f, w.instance, r, 0)
              case Err(_) => cache.model == old(cache.model)
      ensures res.Ok? <==> readOk && reply.Some? && ParseInt(f).Some? && ParseInt(f).value in functions
      ensures res == Err(FunctionNotFound) <==> readOk && ParseInt(f).Some? && ParseInt(f).value !in functions
      ensures res != Err(NoRunnerAvailable)
    {
      var id := ParseInt(f);
      if id.None? {
        return Err(BadFunctionId);
      }
      if !readOk {
        return Err(DatabaseFailed);
      }
      if id.value !in functions {
        return Err(FunctionNotFound);
      }
      if reply.None? {
        return Err(PrepareFailed);
      }
      CacheTablesOk();
      NamedIsClean(cache.model, Set(f, reply.value, r, 0));
      cache.SetInstance(f, reply.value, r, 0);
      return Ok(Routing(r, reply.value));
    }

    /** A warm answer leaves the cache alone. A cold start ends in a pair that is the
        cache's own mapping for the function, on a least loaded runner. */
    method RouteFunction(f: FuncId, readOk: bool, reply: Option<Id>) returns (res: Result<Routing>)
      requires Valid()
      modifies cache
      ensures Valid()
      ensures res.Ok? ==> cache.model.FuncOf(res.value.instance) == Some(f) &&
                          cache.model.entries[res.value.instance].runner == res.value.runner &&
                          res.value.runner in runners
      ensures (exists i :: Healthy(old(cache.model), f, thresholds.instance, i)) ==>
                res.Ok? && cache.model == old(cache.model) && Answers(old(cache.model), f, thresholds, Warm(res.value))
      ensures res.Ok? && (forall i :: !Healthy(old(cache.model), f, thresholds.instance, i)) ==>
                && Answers(old(cache.model), f, thresholds, PrepareOn(f, res.value.runner))
                && cache.model == old(cache.model).SetInstance(f, res.value.instance, res.value.runner, 0)
      ensures res.Err? ==> cache.model == old(cache.model)
      ensures res == Err(NoRunnerAvailable) <==> Answers(old(cache.model), f, thresholds, NoRunner)
    {
      var out := Route(cache, f, thresholds);
      if Answers(cache.model, f, thresholds, NoRunner) {
        AnswersExclusive(cache.model, f, thresholds, out, NoRunner);
      }
      match out
      case Warm(w) =>
        assert w.runner in cache.model.runners by {
          CacheTablesOk();
        }
        return Ok(w);
      case PrepareOn(g, r) =>
        res := PrepareInstance(g, r, readOk, reply);
      case NoRunner =>
        return Err(NoRunnerAvailable);
      case LookupFailed(_) =>
        return Err(RouterFailed);
    }

    lemma CacheTablesOk()
      requires Valid()
      ensures cache.model.Ok()
    {
      CacheTables.RepresentedOk(cache.State(), cache.model, {});
    }
  }

  /** Two routes in a row for one function: whatever the first one did to get an instance,
      with a positive instance threshold the second is warm and starts nothing. */
  method RouteTwice(svc: CommanderService, f: FuncId, readOk: bool, reply: Option<Id>, readOk': bool, reply': Option<Id>)
    returns (first: Result<Routing>, second: Result<Routing>, ghost between: Cache)
    requires svc.Valid() && svc.thresholds.instance > 0
    modifies svc.cache
    ensures svc.Valid()
    ensures first.Ok? ==> second.Ok? && svc.cache.model == between && between.FuncOf(first.value.instance) == Some(f)
  {
    first := svc.RouteFunction(f, readOk, reply);
    between := svc.cache.model;
    if first.Ok? {
      if i :| Healthy(old(svc.cache.model), f, svc.thresholds.instance, i) {
        assert Healthy(between, f, svc.thresholds.instance, i);
      } else {
        assert Healthy(between, f, svc.thresholds.instance, first.value.instance);
      }
    }
    second := svc.RouteFunction(f, readOk', reply');
  }
}
