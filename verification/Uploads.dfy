/** Concurrent uploads (pkg/commander/service.go:182-231): the hash is checked against the
    functions table, the bytes are written to the file their hash names, and the row is
    inserted under a unique hash. A write is not atomic; a failed one is followed by an
    attempt to remove the file, which may fail too (pkg/server/files.go:15-32).
    A run is any sequence of steps; a step that is not enabled changes nothing. */
module Uploads {
  import opened FuncStorage

  type Pid = nat
  type Ino = nat
  type Bytes = seq<Byte>

  /** What writers have done to a file since it was last opened with no other writer at work.
      When none is at work any more, no write was broken off and there was one content, the
      file holds exactly that content. */
  datatype Node = Node(path: string, parts: set<Bytes>, broken: bool)

  datatype Row = Row(name: string, path: string)

  datatype Proc =
    | Checking(name: string, data: Bytes)           // before the lookup by hash
    | Saving(name: string, data: Bytes)             // unknown hash, before the file is opened
    | Writing(name: string, data: Bytes, ino: Ino)  // the file is open and truncated
    | Deleting(name: string, data: Bytes)           // the open or the write failed
    | Inserting(name: string, data: Bytes)          // saved, before the insert
    | Created
    | Refused

  datatype State = State(
    files: map<string, Ino>,
    nodes: seq<Node>,         // an open file outlives its name
    rows: map<Hash, Row>,
    procs: map<Pid, Proc>,
    leftovers: set<string>)   // paths whose removal has failed

  datatype Step =
    | Upload(p: Pid, name: string, data: Bytes)
    | Check(p: Pid)
    | Open(p: Pid, ok: bool)
    | Write(p: Pid, ok: bool)
    | Delete(p: Pid, ok: bool)
    | Insert(p: Pid)

  const START := State(map[], [], map[], map[], {})

  predicate Written(s: State, ino: Ino) {
    exists p :: p in s.procs && s.procs[p].Writing? && s.procs[p].ino == ino
  }

  function PathOf(name: string, data: Bytes, sha: Bytes -> Hash): string {
    FunctionFilename(name, sha(data))
  }

  function To(s: State, p: Pid, proc: Proc): State {
    s.(procs := s.procs[p := proc])
  }

  function Next(s: State, step: Step, sha: Bytes -> Hash): State {
    if step.Upload? then
      if step.p in s.procs then s else To(s, step.p, Checking(step.name, step.data))
    else if step.p !in s.procs then s
    else Advance(s, step, sha, s.procs[step.p])
  }

  /** The file is created, or the existing one is truncated. */
  function Opened(s: State, p: Pid, name: string, data: Bytes, path: string): State {
    if path in s.files && s.files[path] < |s.nodes| then
      var ino := s.files[path];
      var node := if Written(s, ino) then s.nodes[ino].(parts := s.nodes[ino].parts + {data}) else Node(path, {data}, false);
      To(s.(nodes := s.nodes[ino := node]), p, Writing(name, data, ino))
    else
      To(s.(files := s.files[path := |s.nodes|], nodes := s.nodes + [Node(path, {data}, false)]), p,
         Writing(name, data, |s.nodes|))
  }

  /** The write is broken off. */
  function Broke(s: State, p: Pid, u: Proc): State
    requires u.Writing? && u.ino < |s.nodes|
  {
    To(s.(nodes := s.nodes[u.ino := s.nodes[u.ino].(broken := true)]), p, Deleting(u.name, u.data))
  }

  function Advance(s: State, step: Step, sha: Bytes -> Hash, u: Proc): State {
    match step
    case Check(p) =>
      if u.Checking? then To(s, p, if sha(u.data) in s.rows then Refused else Saving(u.name, u.data)) else s
    case Open(p, ok) =>
      if !u.Saving? then s
      else if ok then Opened(s, p, u.name, u.data, PathOf(u.name, u.data, sha))
      else To(s, p, Deleting(u.name, u.data))
    case Write(p, ok) =>
      if !u.Writing? || u.ino >= |s.nodes| then s
      else if ok then To(s, p, Inserting(u.name, u.data))
      else Broke(s, p, u)
    case Delete(p, ok) =>
      if !u.Deleting? then s
      else if ok then To(s.(files := s.files - {PathOf(u.name, u.data, sha)}), p, Refused)
      else To(s.(leftovers := s.leftovers + {PathOf(u.name, u.data, sha)}), p, Refused)
    case Insert(p) =>
      if !u.Inserting? then s
      else if sha(u.data) in s.rows then To(s, p, Refused)
      else
        To(s.(rows := s.rows[sha(u.data) := Row(u.name, PathOf(u.name, u.data, sha))]), p, Created)
    case Upload(_, _, _) => s
  }

  function Run(s: State, steps: seq<Step>, sha: Bytes -> Hash): State {
    if steps == [] then s else Next(Run(s, steps[..|steps| - 1], sha), steps[|steps| - 1], sha)
  }

  // ---- what the files hold

  ghost predicate NodeOk(sha: Bytes -> Hash, node: Node) {
    node.parts != {} && forall d :: d in node.parts ==> Names(node.path, sha(d))
  }

  /** The path carries the hash. */
  predicate Names(path: string, h: Hash) {
    Decode(path).Some? && Decode(path).value.1 == h
  }

  predicate ProcOk(s: State, sha: Bytes -> Hash, u: Proc) {
    u.Writing? ==> u.ino < |s.nodes| && s.nodes[u.ino].path == PathOf(u.name, u.data, sha)
  }

  predicate Cleans(u: Proc, sha: Bytes -> Hash, path: string) {
    u.Deleting? && PathOf(u.name, u.data, sha) == path
  }

  /** A broken write is followed by a removal, unless that has failed. */
  ghost predicate Explained(s: State, sha: Bytes -> Hash, path: string) {
    path in s.leftovers || exists p :: p in s.procs && Cleans(s.procs[p], sha, path)
  }

  ghost predicate FileOk(s: State, sha: Bytes -> Hash, path: string) {
    path in s.files ==>
      && s.files[path] < |s.nodes| && s.nodes[s.files[path]].path == path
      && (s.nodes[s.files[path]].broken ==> Explained(s, sha, path))
  }

  ghost predicate NodesOk(s: State, sha: Bytes -> Hash) {
    forall i :: 0 <= i < |s.nodes| ==> NodeOk(sha, s.nodes[i])
  }

  ghost predicate ProcsOk(s: State, sha: Bytes -> Hash) {
    forall p :: p in s.procs ==> ProcOk(s, sha, s.procs[p])
  }

  ghost predicate Inv(s: State, sha: Bytes -> Hash) {
    && NodesOk(s, sha) && ProcsOk(s, sha)
    && (forall path :: FileOk(s, sha, path))
    && (forall h :: h in s.rows ==> s.rows[h].path == FunctionFilename(s.rows[h].name, h))
  }

  lemma StillExplained(s: State, s': State, sha: Bytes -> Hash, path: string, p: Pid)
    requires s.leftovers <= s'.leftovers
    requires forall a :: a in s.procs && a != p ==> a in s'.procs && s'.procs[a] == s.procs[a]
    requires p in s.procs && Cleans(s.procs[p], sha, path) ==> path in s'.leftovers || (p in s'.procs && s'.procs[p] == s.procs[p])
    ensures Explained(s, sha, path) ==> Explained(s', sha, path)
  {
    if a :| a in s.procs && Cleans(s.procs[a], sha, path) {
      assert a != p ==> a in s'.procs && Cleans(s'.procs[a], sha, path);
    }
  }

  /** Only p moves, and no node changes its path. */
  predicate Moves(s: State, s': State, p: Pid) {
    && p in s.procs && p in s'.procs && s'.procs == s.procs[p := s'.procs[p]]
    && |s.nodes| <= |s'.nodes| && (forall i :: 0 <= i < |s.nodes| ==> s'.nodes[i].path == s.nodes[i].path)
  }

  lemma ProcsMove(s: State, s': State, sha: Bytes -> Hash, p: Pid)
    requires ProcsOk(s, sha) && Moves(s, s', p) && ProcOk(s', sha, s'.procs[p])
    ensures ProcsOk(s', sha)
  {
    forall a | a in s'.procs
      ensures ProcOk(s', sha, s'.procs[a])
    {
      assert a in s.procs && ProcOk(s, sha, s.procs[a]);
    }
  }

  lemma FileMoves(s: State, s': State, sha: Bytes -> Hash, p: Pid, path: string)
    requires FileOk(s, sha, path) && Moves(s, s', p) && s'.leftovers == s.leftovers && !s.procs[p].Deleting?
    requires path in s'.files ==> path in s.files && s'.files[path] == s.files[path]
    requires path in s'.files && s'.nodes[s'.files[path]].broken ==>
               s.nodes[s.files[path]].broken || Explained(s', sha, path)
    ensures FileOk(s', sha, path)
  {
    StillExplained(s, s', sha, path, p);
  }

  lemma OpenedMoves(s: State, p: Pid, name: string, data: Bytes, sha: Bytes -> Hash)
    requires FileOk(s, sha, PathOf(name, data, sha)) && p in s.procs
    ensures var s' := Opened(s, p, name, data, PathOf(name, data, sha));
            Moves(s, s', p) && ProcOk(s', sha, s'.procs[p])
  {
  }

  lemma OpenedNodes(s: State, p: Pid, name: string, data: Bytes, sha: Bytes -> Hash)
    requires NodesOk(s, sha) && FileOk(s, sha, PathOf(name, data, sha))
    ensures NodesOk(Opened(s, p, name, data, PathOf(name, data, sha)), sha)
  {
    var path := PathOf(name, data, sha);
    DecodeFilename(name, sha(data));
    assert NodeOk(sha, Node(path, {data}, false));
    if path in s.files {
      var node := s.nodes[s.files[path]];
      assert NodeOk(sha, node);
      assert NodeOk(sha, node.(parts := node.parts + {data}));
    }
  }

  lemma OpenedFiles(s: State, p: Pid, name: string, data: Bytes, sha: Bytes -> Hash, path: string)
    requires FileOk(s, sha, path)
    ensures var mine, s' := PathOf(name, data, sha), Opened(s, p, name, data, PathOf(name, data, sha));
            && s'.leftovers == s.leftovers && s'.rows == s.rows
            && (path != mine && path in s'.files ==> path in s.files && s'.files[path] == s.files[path])
            && (path == mine ==> path in s'.files && s'.files[path] < |s'.nodes|)
            && (path == mine && path in s.files ==> s'.files[path] == s.files[path])
            && (path == mine && path !in s.files ==> s'.nodes[s'.files[path]] == Node(path, {data}, false))
            && (forall i :: 0 <= i < |s.nodes| ==> s'.nodes[i].broken ==> s.nodes[i].broken)
  {
  }

  lemma OpenKeeps(s: State, p: Pid, name: string, data: Bytes, sha: Bytes -> Hash)
    requires Inv(s, sha) && p in s.procs && s.procs[p] == Saving(name, data)
    ensures Inv(Opened(s, p, name, data, PathOf(name, data, sha)), sha)
  {
    var mine := PathOf(name, data, sha);
    var s' := Opened(s, p, name, data, mine);
    assert FileOk(s, sha, mine);
    OpenedNodes(s, p, name, data, sha);
    OpenedMoves(s, p, name, data, sha);
    ProcsMove(s, s', sha, p);
    forall path
      ensures FileOk(s', sha, path)
    {
      assert FileOk(s, sha, path);
      OpenedFiles(s, p, name, data, sha, path);
      if path != mine || path in s.files {
        FileMoves(s, s', sha, p, path);
      }
    }
    OpenedFiles(s, p, name, data, sha, mine);
  }

  lemma BreakKeeps(s: State, p: Pid, sha: Bytes -> Hash)
    requires Inv(s, sha) && p in s.procs && s.procs[p].Writing? && s.procs[p].ino < |s.nodes|
    ensures Inv(Broke(s, p, s.procs[p]), sha)
  {
    var u, s' := s.procs[p], Broke(s, p, s.procs[p]);
    assert ProcOk(s, sha, u);
    assert NodeOk(sha, s.nodes[u.ino]);
    assert NodesOk(s', sha);
    ProcsMove(s, s', sha, p);
    forall path
      ensures FileOk(s', sha, path)
    {
      assert FileOk(s, sha, path);
      if path == PathOf(u.name, u.data, sha) {
        assert Cleans(s'.procs[p], sha, path);
      }
      FileMoves(s, s', sha, p, path);
    }
  }

  /** The other steps touch no node and no path but one they remove. */
  lemma OtherSteps(s: State, step: Step, sha: Bytes -> Hash, path: string)
    requires !(step.Open? && step.ok) && !(step.Write? && !step.ok)
    ensures var s' := Next(s, step, sha);
            && s'.nodes == s.nodes && s.leftovers <= s'.leftovers
            && (path in s'.files ==> path in s.files && s'.files[path] == s.files[path])
            && (step.p in s.procs && Cleans(s.procs[step.p], sha, path) ==>
                  path !in s'.files || path in s'.leftovers || (step.p in s'.procs && s'.procs[step.p] == s.procs[step.p]))
            && (forall a :: a in s.procs && a != step.p ==> a in s'.procs && s'.procs[a] == s.procs[a])
            && (forall a :: a in s'.procs && a !in s.procs ==> !s'.procs[a].Writing?)
            && (step.p in s'.procs && s'.procs[step.p].Writing? ==> step.p in s.procs && s'.procs[step.p] == s.procs[step.p])
  {
  }

  lemma OtherStepsKeep(s: State, step: Step, sha: Bytes -> Hash)
    requires Inv(s, sha) && !(step.Open? && step.ok) && !(step.Write? && !step.ok)
    ensures Inv(Next(s, step, sha), sha)
  {
    var s' := Next(s, step, sha);
    OtherSteps(s, step, sha, "");
    forall a | a in s'.procs
      ensures ProcOk(s', sha, s'.procs[a])
    {
      assert a in s.procs ==> ProcOk(s, sha, s.procs[a]);
    }
    forall path
      ensures FileOk(s', sha, path)
    {
      assert FileOk(s, sha, path);
      OtherSteps(s, step, sha, path);
      if path in s'.files {
        StillExplained(s, s', sha, path, step.p);
      }
    }
  }

  lemma StepKeepsInv(s: State, step: Step, sha: Bytes -> Hash)
    requires Inv(s, sha)
    ensures Inv(Next(s, step, sha), sha)
  {
    if (step.Open? && step.ok) || (step.Write? && !step.ok) {
      if step.p in s.procs && step.Open? && s.procs[step.p].Saving? {
        OpenKeeps(s, step.p, s.procs[step.p].name, s.procs[step.p].data, sha);
      } else if step.p in s.procs && step.Write? && s.procs[step.p].Writing? {
        assert ProcOk(s, sha, s.procs[step.p]);
        BreakKeeps(s, step.p, sha);
      }
    } else {
      OtherStepsKeep(s, step, sha);
    }
  }

  lemma {:induction false} RunKeepsInv(steps: seq<Step>, sha: Bytes -> Hash)
    ensures Inv(Run(START, steps, sha), sha)
  {
    if steps == [] {
    } else {
      RunKeepsInv(steps[..|steps| - 1], sha);
      StepKeepsInv(Run(START, steps[..|steps| - 1], sha), steps[|steps| - 1], sha);
    }
  }

  /** The file is complete: no writer is at work, none was broken off, and all wrote the
      same bytes. */
  ghost predicate Holds(s: State, path: string, data: Bytes) {
    && path in s.files && s.files[path] < |s.nodes| && !Written(s, s.files[path])
    && !s.nodes[s.files[path]].broken && s.nodes[s.files[path]].parts == {data}
  }

  ghost predicate Collision(sha: Bytes -> Hash, h: Hash, d: Bytes, e: Bytes) {
    d != e && sha(d) == h && sha(e) == h
  }

  /** A failed upload of the same name and hash is about to remove the file, or one could not. */
  ghost predicate LeftBroken(s: State, sha: Bytes -> Hash, row: Row, h: Hash) {
    || row.path in s.leftovers
    || exists p :: p in s.procs && s.procs[p].Deleting? && sha(s.procs[p].data) == h &&
                   Sanitize(s.procs[p].name) == Sanitize(row.name)
  }

  lemma CleanerHasSameName(s: State, sha: Bytes -> Hash, row: Row, h: Hash)
    requires row.path == FunctionFilename(row.name, h) && Explained(s, sha, row.path)
    ensures LeftBroken(s, sha, row, h)
  {
    if p :| p in s.procs && Cleans(s.procs[p], sha, row.path) {
      FilenameInjective(row.name, h, s.procs[p].name, sha(s.procs[p].data));
    }
  }

  /** However uploads interleave and fail, a stored function's file, if it is there, is one
      of these: bytes whose hash its row records; still being written; left by a broken write
      of the same name and hash whose removal is pending or has failed; or a mixture of two
      different uploads with that same hash. */
  lemma StoredBytesKeepTheirHash(steps: seq<Step>, sha: Bytes -> Hash, h: Hash)
    requires h in Run(START, steps, sha).rows && Run(START, steps, sha).rows[h].path in Run(START, steps, sha).files
    ensures var s := Run(START, steps, sha);
            var row := s.rows[h];
            && (forall d :: Holds(s, row.path, d) ==> sha(d) == h)
            && ((exists d :: Holds(s, row.path, d)) || Written(s, s.files[row.path]) || LeftBroken(s, sha, row, h)
                || exists d, e :: Collision(sha, h, d, e))
  {
    RunKeepsInv(steps, sha);
    var s := Run(START, steps, sha);
    var row := s.rows[h];
    assert FileOk(s, sha, row.path);
    DecodeFilename(row.name, h);
    var node := s.nodes[s.files[row.path]];
    assert NodeOk(sha, node);
    var d :| d in node.parts;
    if node.broken {
      CleanerHasSameName(s, sha, row, h);
    } else if node.parts == {d} {
      assert !Written(s, s.files[row.path]) ==> Holds(s, row.path, d);
    } else {
      var e :| e in node.parts && e != d;
      assert Collision(sha, h, d, e);
    }
  }

  lemma RowsGrow(s: State, step: Step, sha: Bytes -> Hash, h: Hash)
    requires h in s.rows
    ensures h in Next(s, step, sha).rows && Next(s, step, sha).rows[h] == s.rows[h]
  {
  }

  /** A stored function's row never changes. */
  lemma {:induction false} RowsNeverChange(s: State, steps: seq<Step>, sha: Bytes -> Hash, h: Hash)
    requires h in s.rows
    ensures h in Run(s, steps, sha).rows && Run(s, steps, sha).rows[h] == s.rows[h]
  {
    if steps == [] {
    } else {
      RowsNeverChange(s, steps[..|steps| - 1], sha, h);
      RowsGrow(Run(s, steps[..|steps| - 1], sha), steps[|steps| - 1], sha, h);
    }
  }

  // ---- a spoiled file stays spoiled until it is opened anew

  /** A write to the file was broken off, or different contents went into it. */
  predicate Spoiled(node: Node) {
    node.broken || exists d, e :: d in node.parts && e in node.parts && d != e
  }

  /** The step opens the file while nobody is writing it. */
  predicate Renews(s: State, step: Step, sha: Bytes -> Hash, ino: Ino) {
    && step.Open? && step.ok && step.p in s.procs && s.procs[step.p].Saving? && !Written(s, ino)
    && var path := PathOf(s.procs[step.p].name, s.procs[step.p].data, sha); path in s.files && s.files[path] == ino
  }

  lemma PartsStay(s: State, step: Step, sha: Bytes -> Hash, ino: Ino)
    requires ino < |s.nodes| && !Renews(s, step, sha, ino)
    ensures var s' := Next(s, step, sha);
            && ino < |s'.nodes| && s.nodes[ino].parts <= s'.nodes[ino].parts
            && (s.nodes[ino].broken ==> s'.nodes[ino].broken)
  {
  }

  /** What an upload writes goes into the file, and a write that breaks off spoils it. */
  lemma WriterContributes(s: State, sha: Bytes -> Hash, p: Pid)
    requires p in s.procs
    ensures var u := s.procs[p];
            && (u.Saving? && FileOk(s, sha, PathOf(u.name, u.data, sha)) ==>
                  var s' := Next(s, Open(p, true), sha);
                  p in s'.procs && s'.procs[p].Writing? && s'.procs[p].ino < |s'.nodes| &&
                  u.data in s'.nodes[s'.procs[p].ino].parts)
            && (u.Writing? && u.ino < |s.nodes| ==>
                  var s' := Next(s, Write(p, false), sha); u.ino < |s'.nodes| && Spoiled(s'.nodes[u.ino]))
  {
  }

  /** Nothing but an open with no writer at work makes a spoiled file whole. */
  lemma {:induction false} SpoiledUntilRenewed(s: State, steps: seq<Step>, sha: Bytes -> Hash, ino: Ino, path: string, d: Bytes)
    requires ino < |s.nodes| && Spoiled(s.nodes[ino])
    requires forall k :: 0 <= k < |steps| ==> !Renews(Run(s, steps[..k], sha), steps[k], sha, ino)
    ensures var e := Run(s, steps, sha);
            ino < |e.nodes| && Spoiled(e.nodes[ino]) && (path in e.files && e.files[path] == ino ==> !Holds(e, path, d))
  {
    if steps == [] {
    } else {
      var n := |steps| - 1;
      var before := steps[..n];
      assert forall k :: 0 <= k < n ==> before[..k] == steps[..k] && before[k] == steps[k];
      SpoiledUntilRenewed(s, before, sha, ino, path, d);
      PartsStay(Run(s, before, sha), steps[n], sha, ino);
    }
  }

  // ---- an upload of stored bytes

  /** The step leaves the disk and the table alone. */
  predicate Harmless(s: State, s': State) {
    s'.files == s.files && s'.nodes == s.nodes && s'.rows == s.rows && s'.leftovers == s.leftovers
  }

  lemma RefusedStep(s: State, step: Step, sha: Bytes -> Hash, p: Pid)
    requires p in s.procs && (s.procs[p].Refused? || (s.procs[p].Checking? && sha(s.procs[p].data) in s.rows))
    ensures var s' := Next(s, step, sha);
            && p in s'.procs && (s'.procs[p].Refused? || s'.procs[p] == s.procs[p])
            && (step == Check(p) ==> s'.procs[p].Refused?)
            && (step.p == p ==> Harmless(s, s'))
  {
  }

  /** An upload that has not been checked when its hash is already stored is refused by the
      check, whatever else runs, and none of its steps touches a file, a row or a leftover. */
  lemma {:induction false} StoredIsRefused(s: State, steps: seq<Step>, sha: Bytes -> Hash, p: Pid)
    requires p in s.procs && s.procs[p].Checking? && sha(s.procs[p].data) in s.rows
    ensures var e := Run(s, steps, sha);
            && p in e.procs && (e.procs[p].Refused? || e.procs[p] == s.procs[p])
            && (Check(p) in steps ==> e.procs[p].Refused?)
    ensures forall k :: 0 <= k < |steps| && steps[k].p == p ==>
              Harmless(Run(s, steps[..k], sha), Run(s, steps[..k + 1], sha))
  {
    if steps == [] {
    } else {
      var n := |steps| - 1;
      var before := steps[..n];
      var m := Run(s, before, sha);
      StoredIsRefused(s, before, sha, p);
      RowsNeverChange(s, before, sha, sha(s.procs[p].data));
      RefusedStep(m, steps[n], sha, p);
      assert steps == before + [steps[n]];
      forall k | 0 <= k < |steps| && steps[k].p == p
        ensures Harmless(Run(s, steps[..k], sha), Run(s, steps[..k + 1], sha))
      {
        if k < n {
          assert before[..k] == steps[..k] && before[..k + 1] == steps[..k + 1];
        } else {
          assert steps[..k + 1] == steps;
        }
      }
    }
  }

  /** Of uploads of the same bytes that were written side by side, the first insert stores the
      row and every later one is refused. */
  lemma InsertOutcome(s: State, sha: Bytes -> Hash, p: Pid, name: string, data: Bytes)
    requires p in s.procs && s.procs[p] == Inserting(name, data)
    ensures var e := Next(s, Insert(p), sha);
            if sha(data) in s.rows then e == To(s, p, Refused)
            else e == To(s.(rows := s.rows[sha(data) := Row(name, FunctionFilename(name, sha(data)))]), p, Created)
  {
  }

  // ---- a row is what was uploaded

  lemma RunTo(steps: seq<Step>, sha: Bytes -> Hash, n: nat)
    requires n < |steps|
    ensures Run(START, steps[..n + 1], sha) == Next(Run(START, steps[..n], sha), steps[n], sha)
  {
    assert steps[..n + 1][..n] == steps[..n];
  }

  predicate Active(u: Proc) {
    !u.Created? && !u.Refused?
  }

  lemma ActiveStep(s: State, step: Step, sha: Bytes -> Hash, p: Pid)
    requires p in Next(s, step, sha).procs && Active(Next(s, step, sha).procs[p])
    ensures var u := Next(s, step, sha).procs[p];
            if p in s.procs then Active(s.procs[p]) && s.procs[p].name == u.name && s.procs[p].data == u.data
            else step == Upload(p, u.name, u.data)
  {
  }

  /** An upload works with the name and the bytes it was given. */
  lemma {:induction false} WorksAsGiven(steps: seq<Step>, sha: Bytes -> Hash, n: nat, p: Pid)
    requires n <= |steps|
    requires var s := Run(START, steps[..n], sha); p in s.procs && Active(s.procs[p])
    ensures var u := Run(START, steps[..n], sha).procs[p]; Upload(p, u.name, u.data) in steps[..n]
  {
    var s := Run(START, steps[..n - 1], sha);
    RunTo(steps, sha, n - 1);
    ActiveStep(s, steps[n - 1], sha, p);
    assert steps[..n] == steps[..n - 1] + [steps[n - 1]];
    if p in s.procs {
      WorksAsGiven(steps, sha, n - 1, p);
    }
  }

  lemma InsertingStep(s: State, step: Step, sha: Bytes -> Hash, p: Pid)
    requires p in Next(s, step, sha).procs && Next(s, step, sha).procs[p].Inserting?
    ensures p in s.procs && (s.procs[p] == Next(s, step, sha).procs[p] || step == Write(p, true))
  {
  }

  lemma {:induction false} WrittenBefore(steps: seq<Step>, sha: Bytes -> Hash, n: nat, p: Pid)
    requires n <= |steps|
    requires var s := Run(START, steps[..n], sha); p in s.procs && s.procs[p].Inserting?
    ensures Write(p, true) in steps[..n]
  {
    var s := Run(START, steps[..n - 1], sha);
    RunTo(steps, sha, n - 1);
    InsertingStep(s, steps[n - 1], sha, p);
    assert steps[..n] == steps[..n - 1] + [steps[n - 1]];
    if s.procs[p].Inserting? {
      WrittenBefore(steps, sha, n - 1, p);
    }
  }

  lemma RowTraces(s: State, step: Step, sha: Bytes -> Hash, h: Hash)
    requires h in Next(s, step, sha).rows && (h in s.rows ==> s.rows[h] != Next(s, step, sha).rows[h])
    ensures step.p in s.procs && s.procs[step.p].Inserting? && sha(s.procs[step.p].data) == h
    ensures Next(s, step, sha).rows[h] == Row(s.procs[step.p].name, PathOf(s.procs[step.p].name, s.procs[step.p].data, sha))
  {
  }

  /** Every row is the name and the hash of an upload whose bytes were written in full. */
  lemma {:induction false} RowIsUploaded(steps: seq<Step>, sha: Bytes -> Hash, n: nat, h: Hash)
    returns (p: Pid, data: Bytes)
    requires n <= |steps| && h in Run(START, steps[..n], sha).rows
    ensures var row := Run(START, steps[..n], sha).rows[h];
            && sha(data) == h && Upload(p, row.name, data) in steps[..n] && Write(p, true) in steps[..n]
            && row.path == FunctionFilename(row.name, h)
  {
    var s := Run(START, steps[..n - 1], sha);
    RunTo(steps, sha, n - 1);
    assert steps[..n] == steps[..n - 1] + [steps[n - 1]];
    if h in s.rows && s.rows[h] == Run(START, steps[..n], sha).rows[h] {
      p, data := RowIsUploaded(steps, sha, n - 1, h);
    } else {
      RowTraces(s, steps[n - 1], sha, h);
      p := steps[n - 1].p;
      data := s.procs[p].data;
      WorksAsGiven(steps, sha, n - 1, p);
      WrittenBefore(steps, sha, n - 1, p);
    }
  }

  // ---- when the file of a stored function is there

  /** The step opens the file, or truncates it. */
  predicate Opens(s: State, step: Step, sha: Bytes -> Hash, path: string) {
    && step.Open? && step.ok && step.p in s.procs && s.procs[step.p].Saving?
    && PathOf(s.procs[step.p].name, s.procs[step.p].data, sha) == path
  }

  /** The step removes it after a failure. */
  predicate Removes(s: State, step: Step, sha: Bytes -> Hash, path: string) {
    step.Delete? && step.ok && step.p in s.procs && Cleans(s.procs[step.p], sha, path)
  }

  /** Which steps of the run open the file, and which remove it. */
  function Opening(steps: seq<Step>, sha: Bytes -> Hash, path: string): nat -> bool {
    (k: nat) => k < |steps| && Opens(Run(START, steps[..k], sha), steps[k], sha, path)
  }

  function Removing(steps: seq<Step>, sha: Bytes -> Hash, path: string): nat -> bool {
    (k: nat) => k < |steps| && Removes(Run(START, steps[..k], sha), steps[k], sha, path)
  }

  /** After how many steps the file is there. */
  function Present(steps: seq<Step>, sha: Bytes -> Hash, path: string): nat -> bool {
    (m: nat) => m <= |steps| && path in Run(START, steps[..m], sha).files
  }

  /** The k-th step opens the file, and up to the n-th no later step removes it. */
  ghost predicate OpenedForGood(opens: nat -> bool, removes: nat -> bool, k: nat, n: nat) {
    k < n && opens(k) && forall j: nat :: k < j < n ==> !removes(j)
  }

  lemma PresentStep(s: State, step: Step, sha: Bytes -> Hash, path: string)
    ensures path in Next(s, step, sha).files <==>
            Opens(s, step, sha, path) || (path in s.files && !Removes(s, step, sha, path))
  {
  }

  lemma PresentAt(steps: seq<Step>, sha: Bytes -> Hash, path: string, m: nat)
    requires m < |steps|
    ensures Present(steps, sha, path)(m + 1) <==>
            Opening(steps, sha, path)(m) || (Present(steps, sha, path)(m) && !Removing(steps, sha, path)(m))
  {
    RunTo(steps, sha, m);
    PresentStep(Run(START, steps[..m], sha), steps[m], sha, path);
  }

  lemma OpenedUpTo(opens: nat -> bool, removes: nat -> bool, m: nat, n: nat)
    requires n == m + 1
    ensures (exists k: nat :: OpenedForGood(opens, removes, k, n)) <==>
            opens(m) || ((exists k: nat :: OpenedForGood(opens, removes, k, m)) && !removes(m))
  {
    if opens(m) {
      assert OpenedForGood(opens, removes, m, n);
    } else {
      if k: nat :| OpenedForGood(opens, removes, k, n) {
        assert OpenedForGood(opens, removes, k, m);
      }
      if k: nat :| OpenedForGood(opens, removes, k, m) {
        assert removes(m) || OpenedForGood(opens, removes, k, n);
      }
    }
  }

  lemma {:induction false} PresentUpTo(present: nat -> bool, opens: nat -> bool, removes: nat -> bool, n: nat)
    requires !present(0) && forall m: nat :: m < n ==> (present(m + 1) <==> opens(m) || (present(m) && !removes(m)))
    ensures present(n) <==> exists k: nat :: OpenedForGood(opens, removes, k, n)
  {
    if n == 0 {
    } else {
      PresentUpTo(present, opens, removes, n - 1);
      OpenedUpTo(opens, removes, n - 1, n);
    }
  }

  /** Over every run and for every path: the file is there if and only if some upload opened
      it and none has removed it since. */
  lemma PresentIff(steps: seq<Step>, sha: Bytes -> Hash, path: string)
    ensures path in Run(START, steps, sha).files <==>
            exists k: nat :: OpenedForGood(Opening(steps, sha, path), Removing(steps, sha, path), k, |steps|)
  {
    var present, opens, removes := Present(steps, sha, path), Opening(steps, sha, path), Removing(steps, sha, path);
    forall m: nat | m < |steps|
      ensures present(m + 1) <==> opens(m) || (present(m) && !removes(m))
    {
      PresentAt(steps, sha, path, m);
    }
    PresentUpTo(present, opens, removes, |steps|);
    assert steps[..|steps|] == steps;
  }

  // ---- a row's file was opened

  predicate PastOpen(u: Proc) {
    u.Writing? || u.Inserting?
  }

  lemma ProcTraces(s: State, step: Step, sha: Bytes -> Hash, p: Pid)
    requires p in Next(s, step, sha).procs && PastOpen(Next(s, step, sha).procs[p])
    ensures var u := Next(s, step, sha).procs[p];
            && p in s.procs && !s.procs[p].Created? && !s.procs[p].Refused?
            && s.procs[p].name == u.name && s.procs[p].data == u.data
            && (PastOpen(s.procs[p]) || Opens(s, step, sha, PathOf(u.name, u.data, sha)))
  {
  }

  /** The file of an upload past its open has been opened. */
  lemma {:induction false} ProcOpened(steps: seq<Step>, sha: Bytes -> Hash, n: nat, p: Pid) returns (k: nat)
    requires n <= |steps|
    requires var s := Run(START, steps[..n], sha); p in s.procs && PastOpen(s.procs[p])
    ensures var u := Run(START, steps[..n], sha).procs[p];
            k < n && Opening(steps, sha, PathOf(u.name, u.data, sha))(k)
  {
    var s := Run(START, steps[..n - 1], sha);
    RunTo(steps, sha, n - 1);
    ProcTraces(s, steps[n - 1], sha, p);
    if PastOpen(s.procs[p]) {
      k := ProcOpened(steps, sha, n - 1, p);
    } else {
      k := n - 1;
    }
  }

  /** A row is either an old one or that of an upload past its open. */
  lemma RowFrom(steps: seq<Step>, sha: Bytes -> Hash, n: nat, h: Hash)
    requires 0 < n <= |steps| && h in Run(START, steps[..n], sha).rows
    ensures var s, row, p := Run(START, steps[..n - 1], sha), Run(START, steps[..n], sha).rows[h], steps[n - 1].p;
            || (h in s.rows && s.rows[h] == row)
            || (p in s.procs && s.procs[p].Inserting? && row.path == PathOf(s.procs[p].name, s.procs[p].data, sha))
  {
    RunTo(steps, sha, n - 1);
    var s := Run(START, steps[..n - 1], sha);
    if !(h in s.rows && s.rows[h] == Next(s, steps[n - 1], sha).rows[h]) {
      RowTraces(s, steps[n - 1], sha, h);
    }
  }

  /** So has the file of every row. */
  lemma {:induction false} RowOpened(steps: seq<Step>, sha: Bytes -> Hash, n: nat, h: Hash) returns (k: nat)
    requires n <= |steps| && h in Run(START, steps[..n], sha).rows
    ensures k < n && Opening(steps, sha, Run(START, steps[..n], sha).rows[h].path)(k)
  {
    RowFrom(steps, sha, n, h);
    var s, row := Run(START, steps[..n - 1], sha), Run(START, steps[..n], sha).rows[h];
    if h in s.rows && s.rows[h] == row {
      k := RowOpened(steps, sha, n - 1, h);
    } else {
      k := ProcOpened(steps, sha, n - 1, steps[n - 1].p);
    }
  }

  /** The k-th step is the last one that opens the file. */
  ghost predicate LastOpen(opens: nat -> bool, k: nat) {
    opens(k) && forall j: nat :: j > k ==> !opens(j)
  }

  lemma {:induction false} LastOpenExists(opens: nat -> bool, k: nat, n: nat) returns (last: nat)
    requires opens(k) && forall j: nat :: opens(j) ==> j < n
    ensures LastOpen(opens, last) && last >= k
    decreases n - k
  {
    if j: nat :| j > k && opens(j) {
      last := LastOpenExists(opens, j, n);
    } else {
      last := k;
    }
  }

  /** For every run and every stored function: its file has been opened, and it is there if
      and only if no failed upload has removed it since it was last opened. */
  lemma StoredFilePresentIff(steps: seq<Step>, sha: Bytes -> Hash, h: Hash) returns (last: nat)
    requires h in Run(START, steps, sha).rows
    ensures var s := Run(START, steps, sha);
            var path := s.rows[h].path;
            && LastOpen(Opening(steps, sha, path), last)
            && (path in s.files <==> forall j: nat :: j > last ==> !Removing(steps, sha, path)(j))
  {
    var n := |steps|;
    assert steps[..n] == steps;
    var path := Run(START, steps, sha).rows[h].path;
    var opens, removes := Opening(steps, sha, path), Removing(steps, sha, path);
    var k := RowOpened(steps, sha, n, h);
    last := LastOpenExists(opens, k, n);
    PresentIff(steps, sha, path);
    ForGoodIsLast(opens, removes, last, n);
  }

  lemma ForGoodIsLast(opens: nat -> bool, removes: nat -> bool, last: nat, n: nat)
    requires LastOpen(opens, last) && last < n && forall j: nat :: removes(j) ==> j < n
    ensures (exists k: nat :: OpenedForGood(opens, removes, k, n)) <==> forall j: nat :: j > last ==> !removes(j)
  {
    if forall j: nat :: j > last ==> !removes(j) {
      assert OpenedForGood(opens, removes, last, n);
    }
  }

  // ---- failures

  predicate Fails(step: Step) {
    (step.Open? || step.Write?) && !step.ok
  }

  predicate NoFailure(steps: seq<Step>) {
    forall k :: 0 <= k < |steps| ==> !Fails(steps[k])
  }

  ghost predicate NoneDeleting(s: State) {
    forall p :: p in s.procs ==> !s.procs[p].Deleting?
  }

  lemma StepWithoutFailure(s: State, step: Step, sha: Bytes -> Hash)
    requires NoneDeleting(s) && !Fails(step)
    ensures NoneDeleting(Next(s, step, sha))
  {
  }

  lemma {:induction false} NobodyCleansUp(steps: seq<Step>, sha: Bytes -> Hash)
    requires NoFailure(steps)
    ensures NoneDeleting(Run(START, steps, sha))
  {
    if steps == [] {
    } else {
      NobodyCleansUp(steps[..|steps| - 1], sha);
      StepWithoutFailure(Run(START, steps[..|steps| - 1], sha), steps[|steps| - 1], sha);
    }
  }

  /** As long as no open and no write fails, every stored function's file is there. */
  lemma FilesStayWithoutFailures(steps: seq<Step>, sha: Bytes -> Hash, h: Hash)
    requires NoFailure(steps) && h in Run(START, steps, sha).rows
    ensures Run(START, steps, sha).rows[h].path in Run(START, steps, sha).files
  {
    var last := StoredFilePresentIff(steps, sha, h);
    forall j: nat
      ensures !Removing(steps, sha, Run(START, steps, sha).rows[h].path)(j)
    {
      if j < |steps| {
        NobodyCleansUp(steps[..j], sha);
      }
    }
  }

  /** Wherever an upload has passed the check before the same name and bytes were stored, its
      failure to write removes the stored file. */
  lemma FailedRewriteLosesFile(steps: seq<Step>, sha: Bytes -> Hash, p: Pid, h: Hash)
    requires var s := Run(START, steps, sha);
             && h in s.rows && p in s.procs && s.procs[p].Saving?
             && PathOf(s.procs[p].name, s.procs[p].data, sha) == s.rows[h].path
    ensures var s := Run(START, steps, sha);
            var s' := Next(Next(Next(s, Open(p, true), sha), Write(p, false), sha), Delete(p, true), sha);
            h in s'.rows && s'.rows[h] == s.rows[h] && s'.rows[h].path !in s'.files
  {
    RunKeepsInv(steps, sha);
    RewriteLosesFile(Run(START, steps, sha), sha, p, Run(START, steps, sha).rows[h].path);
  }

  lemma RewriteLosesFile(s: State, sha: Bytes -> Hash, p: Pid, path: string)
    requires FileOk(s, sha, path) && p in s.procs && s.procs[p].Saving?
    requires PathOf(s.procs[p].name, s.procs[p].data, sha) == path
    ensures var s' := Next(Next(Next(s, Open(p, true), sha), Write(p, false), sha), Delete(p, true), sha);
            s'.rows == s.rows && path !in s'.files
  {
    var u, s1 := s.procs[p], Next(s, Open(p, true), sha);
    OpenedMoves(s, p, u.name, u.data, sha);
    OpenedFiles(s, p, u.name, u.data, sha, path);
    assert s1 == Opened(s, p, u.name, u.data, path);
    assert ProcOk(s1, sha, s1.procs[p]) && s1.rows == s.rows;
    RemovedAfterFailure(s1, sha, p);
  }

  lemma RemovedAfterFailure(s: State, sha: Bytes -> Hash, p: Pid)
    requires p in s.procs && s.procs[p].Writing? && ProcOk(s, sha, s.procs[p])
    ensures var s' := Next(Next(s, Write(p, false), sha), Delete(p, true), sha);
            s'.rows == s.rows && PathOf(s.procs[p].name, s.procs[p].data, sha) !in s'.files
  {
  }

  /** An open that fails is followed by a removal too, and a removal that fails leaves the file
      as it is and ends the upload. */
  lemma FailedOpenRemoves(s: State, sha: Bytes -> Hash, p: Pid, name: string, data: Bytes)
    requires p in s.procs && s.procs[p] == Saving(name, data)
    ensures var failed, path := Next(s, Open(p, false), sha), PathOf(name, data, sha);
            && failed == To(s, p, Deleting(name, data))
            && Next(failed, Delete(p, true), sha) == s.(files := s.files - {path}, procs := s.procs[p := Refused])
            && Next(failed, Delete(p, false), sha) == s.(leftovers := s.leftovers + {path}, procs := s.procs[p := Refused])
  {
  }

  /** Two uploads of the same bytes pass the check; the first is stored. */
  function Twins(name: string, data: Bytes): seq<Step> {
    [Upload(0, name, data), Upload(1, name, data), Check(0), Check(1), Open(0, true), Write(0, true), Insert(0)]
  }

  function TwinsState(name: string, data: Bytes, h: Hash, k: nat): State
    requires k <= 7
  {
    var path := FunctionFilename(name, h);
    var nodes := [Node(path, {data}, false)];
    match k
    case 0 => START
    case 1 => START.(procs := map[0 := Checking(name, data)])
    case 2 => START.(procs := map[0 := Checking(name, data), 1 := Checking(name, data)])
    case 3 => START.(procs := map[0 := Saving(name, data), 1 := Checking(name, data)])
    case 4 => START.(procs := map[0 := Saving(name, data), 1 := Saving(name, data)])
    case 5 => State(map[path := 0], nodes, map[], map[0 := Writing(name, data, 0), 1 := Saving(name, data)], {})
    case 6 => State(map[path := 0], nodes, map[], map[0 := Inserting(name, data), 1 := Saving(name, data)], {})
    case _ => State(map[path := 0], nodes, map[h := Row(name, path)], map[0 := Created, 1 := Saving(name, data)], {})
  }

  lemma TwinsStepA(name: string, data: Bytes, sha: Bytes -> Hash, k: nat)
    requires k < 4
    ensures Next(TwinsState(name, data, sha(data), k), Twins(name, data)[k], sha) == TwinsState(name, data, sha(data), k + 1)
  {
  }

  lemma TwinsStepB(name: string, data: Bytes, sha: Bytes -> Hash, k: nat)
    requires 4 <= k < 6
    ensures Next(TwinsState(name, data, sha(data), k), Twins(name, data)[k], sha) == TwinsState(name, data, sha(data), k + 1)
  {
  }

  lemma TwinsStepC(name: string, data: Bytes, sha: Bytes -> Hash)
    ensures Next(TwinsState(name, data, sha(data), 6), Twins(name, data)[6], sha) == TwinsState(name, data, sha(data), 7)
  {
    InsertOutcome(TwinsState(name, data, sha(data), 6), sha, 0, name, data);
  }

  lemma {:induction false} TwinsReach(name: string, data: Bytes, sha: Bytes -> Hash, k: nat)
    requires k <= 7
    ensures Run(START, Twins(name, data)[..k], sha) == TwinsState(name, data, sha(data), k)
  {
    if k == 0 {
    } else {
      TwinsReach(name, data, sha, k - 1);
      if k <= 4 {
        TwinsStepA(name, data, sha, k - 1);
      } else if k <= 6 {
        TwinsStepB(name, data, sha, k - 1);
      } else {
        TwinsStepC(name, data, sha);
      }
      assert Twins(name, data)[..k][..k - 1] == Twins(name, data)[..k - 1];
    }
  }

  /** That situation arises for every name and content. */
  lemma RewriteArises(name: string, data: Bytes, sha: Bytes -> Hash)
    ensures var s := Run(START, Twins(name, data), sha);
            && sha(data) in s.rows && s.rows[sha(data)].path in s.files
            && 1 in s.procs && s.procs[1] == Saving(name, data) && PathOf(name, data, sha) == s.rows[sha(data)].path
  {
    TwinsReach(name, data, sha, 7);
    assert Twins(name, data)[..7] == Twins(name, data);
  }
}
