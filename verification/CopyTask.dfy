/** runCopyTask with sources that are to be deleted after the copy: what is
removed, and when, under any interleaving of the workers. */
module CopyTask {
  import opened Wrappers
  import opened WP = WorkerPool

  // ----------------------------------------------------------------- deepest first

  function Slashes(p: string): nat {
    if p == "" then 0 else Slashes(p[..|p| - 1]) + (if p[|p| - 1] == '/' then 1 else 0)
  }

  /** taskTreeRelDepth. */
  function Depth(p: string): nat {
    if p == "." || p == "" then 0 else Slashes(p) + 1
  }

  predicate Below(e: string, d: string) {
    |e| > |d| && e[..|d|] == d && e[|d|] == '/'
  }

  lemma {:induction false} SlashesGrow(p: string, k: nat)
    requires k <= |p|
    ensures Slashes(p[..k]) <= Slashes(p)
    ensures k < |p| && p[k] == '/' ==> Slashes(p[..k]) < Slashes(p)
    decreases |p|
  {
    if k == |p| {
      assert p[..k] == p;
    } else {
      assert p[..|p| - 1][..k] == p[..k];
      SlashesGrow(p[..|p| - 1], k);
    }
  }

  lemma BelowIsDeeper(e: string, d: string)
    requires Below(e, d)
    ensures Depth(e) > Depth(d)
  {
    SlashesGrow(e, |d|);
  }

  function Insert(d: string, dirs: seq<string>): seq<string> {
    if dirs == [] then [d]
    else if Depth(d) > Depth(dirs[|dirs| - 1]) then Insert(d, dirs[..|dirs| - 1]) + [dirs[|dirs| - 1]]
    else dirs + [d]
  }

  /** taskTreeDirsDeepestFirst: the stable sort by falling depth. */
  function DeepestFirst(dirs: seq<string>): seq<string> {
    if dirs == [] then [] else Insert(dirs[|dirs| - 1], DeepestFirst(dirs[..|dirs| - 1]))
  }

  predicate Falling(dirs: seq<string>) {
    forall i, j | 0 <= i < j < |dirs| :: Depth(dirs[i]) >= Depth(dirs[j])
  }

  lemma {:induction false} InsertKeeps(d: string, dirs: seq<string>)
    requires Falling(dirs)
    ensures Falling(Insert(d, dirs)) && multiset(Insert(d, dirs)) == multiset(dirs) + multiset{d}
  {
    hide Depth;
    if dirs != [] {
      var n := |dirs| - 1;
      var last := dirs[n];
      assert dirs == dirs[..n] + [last];
      if Depth(d) > Depth(last) {
        InsertKeeps(d, dirs[..n]);
        var inner := Insert(d, dirs[..n]);
        forall i | 0 <= i < |inner| ensures Depth(inner[i]) >= Depth(last) {
          assert inner[i] in multiset(inner);
          if inner[i] != d {
            assert inner[i] in dirs[..n];
          }
        }
      }
    }
  }

  lemma NothingFalls()
    ensures Falling([])
  {
  }

  /** It is the same directories, by falling depth, so whatever is below another comes before it. */
  lemma {:induction false} DeepestFirstIsSorted(dirs: seq<string>)
    ensures multiset(DeepestFirst(dirs)) == multiset(dirs) && Falling(DeepestFirst(dirs))
  {
    hide Insert, Falling;
    assert Falling([]) by { NothingFalls(); }
    if dirs != [] {
      DeepestFirstIsSorted(dirs[..|dirs| - 1]);
      InsertKeeps(dirs[|dirs| - 1], DeepestFirst(dirs[..|dirs| - 1]));
      assert dirs == dirs[..|dirs| - 1] + [dirs[|dirs| - 1]];
    }
  }

  lemma BelowComesFirst(dirs: seq<string>, i: nat, j: nat)
    requires Falling(dirs) && i < |dirs| && j < |dirs| && Below(dirs[i], dirs[j])
    ensures i < j
  {
    BelowIsDeeper(dirs[i], dirs[j]);
    if j < i {
      assert false;
    }
  }

  // ------------------------------------------------------------------------ the task

  /** How far copyOne got with an item: a copy that passed may have skipped files if it was a directory. */
  datatype Stage = Untouched | Failed | Passed(skipped: nat, isDir: bool) | Removed

  /** What happens to the source side.  A removal counts from the moment it is asked for. */
  datatype Effect = CopyPassed(index: nat, skipped: nat,
      isDir: bool) | SourceRemoved(index: nat) | DirRemoved(dir: string)

  /** `order` are the expanded source directories, deepest first; `removed` of them are gone. */
  datatype State = State(pool: Pool, delete: bool, stages: seq<Stage>, order: seq<string>, removed: nat,
      stopped: bool, log: seq<Effect>)

  datatype Action =
    | Plain(step: Step)
    | CopyFails(worker: nat)
    | CopyPasses(worker: nat, skipped: nat, isDir: bool)
    | RemoveSource(worker: nat, ok: bool)
    | Report(worker: nat, track: Track)
    | RemoveDir(ok: bool)
    | Stop

  function Begin(n: nat, workers: nat, delete: bool, dirs: seq<string>): State {
    State(WP.Start(n, workers), delete, seq(n, _ => Untouched), DeepestFirst(dirs), 0, false, [])
  }

  predicate At(s: State, w: nat) {
    s.pool.over.None? && w < |s.pool.workers| && s.pool.workers[w].Working?
    && s.pool.workers[w].index < |s.stages| && s.pool.workers[w].index < |s.pool.counters.slots|
  }

  function StageAt(s: State, w: nat): Stage
    requires At(s, w)
  {
    s.stages[s.pool.workers[w].index]
  }

  /** copyOne removes the source of a copy that passed, unless a directory copy skipped something. */
  predicate Removable(s: State, stage: Stage) {
    s.delete && stage.Passed? && (stage.isDir ==> stage.skipped == 0)
  }

  /** copyOne returns without an error. */
  predicate Succeeds(s: State, stage: Stage) {
    if s.delete then stage == Removed else stage.Passed?
  }

  predicate Can(s: State, a: Action) {
    match a
    case Plain(step) => !step.Finish? && WP.Can(s.pool, step)
    case CopyFails(w) => At(s, w) && StageAt(s, w).Untouched?
    case CopyPasses(w, _, _) => At(s, w) && StageAt(s, w).Untouched?
    case RemoveSource(w, _) => At(s, w) && Removable(s, StageAt(s, w))
    case Report(w, t) => At(s, w) && !StageAt(s, w).Untouched? && !Removable(s, StageAt(s, w)) &&
        t.ok == Succeeds(s, StageAt(s, w))
    case RemoveDir(_) => s.pool.over == Some(AllDone) && s.delete && !s.stopped && s.removed < |s.order|
    case Stop => s.pool.over.Some?
  }

  function Next(s: State, a: Action): State
    requires Can(s, a)
  {
    match a
    case Plain(step) => s.(pool := WP.Next(s.pool, step))
    case CopyFails(w) => s.(stages := s.stages[s.pool.workers[w].index := Failed])
    case CopyPasses(w, skipped, isDir) =>
      var i := s.pool.workers[w].index;
      s.(stages := s.stages[i := Passed(skipped, isDir)], log := s.log + [CopyPassed(i, skipped, isDir)])
    case RemoveSource(w, ok) =>
      var i := s.pool.workers[w].index;
      s.(stages := s.stages[i := if ok then Removed else Failed], log := s.log + [SourceRemoved(i)])
    case Report(w, t) => s.(pool := WP.Next(s.pool, Finish(w, t, t.bytes)))
    case RemoveDir(ok) => s.(log := s.log + [DirRemoved(s.order[s.removed])],
        removed := s.removed + (if ok then 1 else 0), stopped := !ok)
    case Stop => s.(stopped := true)
  }

  predicate Runs(s: State, actions: seq<Action>)
    decreases |actions|
  {
    actions == [] || (Can(s, actions[0]) && Runs(Next(s, actions[0]), actions[1..]))
  }

  function After(s: State, actions: seq<Action>): State
    requires Runs(s, actions)
    decreases |actions|
  {
    if actions == [] then s else After(Next(s, actions[0]), actions[1..])
  }

  /** copyOne, as one worker goes through it.  It ends at a point where it may report, and what it returns
      is what it has to report. */
  method CopyOne(s: State, w: nat, recursive: bool, expanded: bool) returns (actions: seq<Action>, ok: bool)
    requires At(s, w) && StageAt(s, w).Untouched?
    ensures Runs(s, actions)
    ensures var t := After(s, actions);
            && t.pool == s.pool && |t.stages| == |s.stages|
            && (forall report: Track | report.ok == ok :: Can(t, Report(w, report)))
            && (forall i | 0 <= i < |s.stages| && i != s.pool.workers[w].index :: t.stages[i] == s.stages[i])
  {
    var found: bool, isDir: bool, supported: bool, pass: bool, skipped: nat := *, *, *, *, *;
    if !found || (isDir && !recursive) || !supported || (isDir && expanded) || !pass {
      RunsOne(s, CopyFails(w));
      return [CopyFails(w)], false;
    }
    var passes := CopyPasses(w, skipped, isDir);
    RunsOne(s, passes);
    if isDir && s.delete && skipped > 0 {
      return [passes], false;
    }
    if s.delete {
      var removed: bool := *;
      RunsTwo(s, passes, RemoveSource(w, removed));
      return [passes, RemoveSource(w, removed)], removed;
    }
    return [passes], true;
  }

  lemma RunsOne(s: State, a: Action)
    requires Can(s, a)
    ensures Runs(s, [a]) && After(s, [a]) == Next(s, a)
  {
    assert [a][1..] == [];
  }

  lemma RunsTwo(s: State, a: Action, b: Action)
    requires Can(s, a) && Can(Next(s, a), b)
    ensures Runs(s, [a, b]) && After(s, [a, b]) == Next(Next(s, a), b)
  {
    hide Can, Next;
    RunsOne(Next(s, a), b);
    assert [a, b][1..] == [b];
  }

  // --------------------------------------------------------------------- the invariant

  /** A copy of item `i` passed and left nothing out. */
  predicate Whole(e: Effect, i: int) {
    e.CopyPassed? && e.index == i && (e.isDir ==> e.skipped == 0)
  }

  ghost predicate CopiedWhole(log: seq<Effect>, i: int) {
    exists q | 0 <= q < |log| :: Whole(log[q], i)
  }

  /** Each source is removed only after a whole copy of it passed. */
  ghost predicate RemovalsEarned(log: seq<Effect>) {
    forall p | 0 <= p < |log| && log[p].SourceRemoved? :: CopiedWhole(log[..p], log[p].index)
  }

  /** Each source directory is removed after all sources, and after the directories before it. */
  ghost predicate DirsEarned(log: seq<Effect>, n: nat, order: seq<string>) {
    forall p | 0 <= p < |log| && log[p].DirRemoved? :: DirEarned(log[..p], n, order, log[p].dir)
  }

  ghost predicate DirEarned(before: seq<Effect>, n: nat, order: seq<string>, dir: string) {
    && (forall i | 0 <= i < n :: SourceRemoved(i) in before)
    && exists k | 0 <= k < |order| && order[k] == dir :: AllGone(before, order, k)
  }

  ghost predicate AllGone(log: seq<Effect>, order: seq<string>, k: nat) {
    k <= |order| && forall j | 0 <= j < k :: DirRemoved(order[j]) in log
  }

  ghost predicate StagesInv(s: State) {
    && |s.stages| == |s.pool.counters.slots|
    && (forall i | 0 <= i < |s.stages| ::
          && (s.stages[i].Passed? ==> CopyPassed(i, s.stages[i].skipped, s.stages[i].isDir) in s.log)
          && (s.stages[i].Removed? ==> s.delete && SourceRemoved(i) in s.log))
    && (forall i | 0 <= i < |s.stages| && s.pool.counters.slots[i].Some? &&
        s.pool.counters.slots[i].value.ok :: Succeeds(s, s.stages[i]))
  }

  ghost predicate LogInv(s: State) {
    && RemovalsEarned(s.log) && DirsEarned(s.log, |s.stages|, s.order)
    && AllGone(s.log, s.order, s.removed)
    && (forall e | e in s.log && !e.CopyPassed? :: s.delete)
    && (forall e | e in s.log && e.DirRemoved? :: s.pool.over == Some(AllDone))
  }

  ghost predicate Inv(s: State) {
    WP.Inv(s.pool) && StagesInv(s) && LogInv(s)
  }

  lemma BeginInv(n: nat, workers: nat, delete: bool, dirs: seq<string>)
    ensures Inv(Begin(n, workers, delete, dirs))
  {
    WP.StartInv(n, workers);
  }

  /** One more effect leaves the earlier ones as earned as they were. */
  lemma LogGrows(log: seq<Effect>, e: Effect, n: nat, order: seq<string>)
    requires RemovalsEarned(log) && DirsEarned(log, n, order)
    requires e.SourceRemoved? ==> CopiedWhole(log, e.index)
    requires e.DirRemoved? ==> DirEarned(log, n, order, e.dir)
    ensures RemovalsEarned(log + [e]) && DirsEarned(log + [e], n, order)
  {
    hide CopiedWhole, DirEarned;
    var more := log + [e];
    assert more[..|log|] == log;
    forall p | 0 <= p < |more| ensures p < |log| ==> more[p] == log[p] && more[..p] == log[..p] {
    }
  }

  lemma {:induction false} AllGood(slots: seq<Option<Track>>)
    requires Good(slots) == |slots|
    ensures forall i | 0 <= i < |slots| :: slots[i].Some? && slots[i].value.ok
  {
    if slots != [] {
      AllFilled(slots[..|slots| - 1]);
      AllGood(slots[..|slots| - 1]);
      forall i | 0 <= i < |slots| - 1 ensures slots[i].Some? && slots[i].value.ok {
        assert slots[..|slots| - 1][i] == slots[i];
      }
    }
  }

  /** A batch that is all done, and deletes, has removed every source. */
  lemma AllRemoved(s: State)
    requires Inv(s) && s.delete && s.pool.over == Some(AllDone)
    ensures forall i | 0 <= i < |s.stages| :: SourceRemoved(i) in s.log
  {
    hide LogInv, Filled, Compact;
    AllGood(s.pool.counters.slots);
  }

  lemma SourceStep(s: State, a: Action)
    requires Inv(s) && Can(s, a) && (a.CopyFails? || a.CopyPasses? || a.RemoveSource?)
    ensures Inv(Next(s, a))
  {
    hide WP.Inv;
    NotOver(s, a.worker);
    var i, t := s.pool.workers[a.worker].index, Next(s, a);
    if !a.CopyFails? {
      var e := t.log[|s.log|];
      if a.RemoveSource? {
        var passed := CopyPassed(i, s.stages[i].skipped, s.stages[i].isDir);
        var q :| 0 <= q < |s.log| && s.log[q] == passed;
        assert Whole(s.log[q], i);
      }
      LogGrows(s.log, e, |s.stages|, s.order);
      assert t.log == s.log + [e];
      hide RemovalsEarned, DirsEarned;
    }
  }

  /** The slot of an item in work is empty. */
  lemma NotOver(s: State, w: nat)
    requires WP.Inv(s.pool) && At(s, w)
    ensures s.pool.counters.slots[s.pool.workers[w].index].None?
  {
    hide Filled, Good, Compact;
    assert Busy(s.pool.workers[w]);
  }

  lemma DirStep(s: State, a: Action)
    requires Inv(s) && Can(s, a) && a.RemoveDir?
    ensures Inv(Next(s, a))
  {
    hide WP.Inv;
    var t, e := Next(s, a), DirRemoved(s.order[s.removed]);
    AllRemoved(s);
    assert DirEarned(s.log, |s.stages|, s.order, e.dir);
    LogGrows(s.log, e, |s.stages|, s.order);
    assert forall x | x in s.log :: x in t.log;
    assert e in t.log;
    hide RemovalsEarned, DirsEarned, DirEarned;
  }

  lemma PoolStep(s: State, a: Action)
    requires Inv(s) && Can(s, a) && (a.Plain? || a.Report?)
    ensures Inv(Next(s, a))
  {
    hide WP.Inv, RemovalsEarned, DirsEarned, Compact;
    WP.StepKeeps(s.pool, if a.Plain? then a.step else Finish(a.worker, a.track, a.track.bytes));
  }

  lemma StepKeeps(s: State, a: Action)
    requires Inv(s) && Can(s, a)
    ensures Inv(Next(s, a)) && Next(s, a).order == s.order && |Next(s, a).stages| == |s.stages| &&
        s.log <= Next(s, a).log
  {
    hide WP.Inv, StagesInv;
    match a
    case Plain(_) => PoolStep(s, a);
    case Report(_, _) => PoolStep(s, a);
    case CopyFails(_) => SourceStep(s, a);
    case CopyPasses(_, _, _) => SourceStep(s, a);
    case RemoveSource(_, _) => SourceStep(s, a);
    case RemoveDir(_) => DirStep(s, a);
    case Stop => StopStep(s, a);
  }

  lemma StopStep(s: State, a: Action)
    requires Inv(s) && Can(s, a) && a.Stop?
    ensures Inv(Next(s, a))
  {
    hide WP.Inv, RemovalsEarned, DirsEarned;
  }

  lemma {:induction false} RunKeeps(s: State, actions: seq<Action>)
    requires Inv(s) && Runs(s, actions)
    ensures Inv(After(s, actions)) && After(s, actions).order == s.order && |After(s, actions).stages| == |s.stages|
    decreases |actions|
  {
    hide Inv, Next, Can;
    if actions != [] {
      StepKeeps(s, actions[0]);
      RunKeeps(Next(s, actions[0]), actions[1..]);
    }
  }

  // --------------------------------------------------------------------- whole runs

  /** A source is removed only if that was asked for, and only after its own copy passed; a directory copied
      as a whole only if nothing was skipped. */
  lemma SourceGoesAfterItsCopy(n: nat, workers: nat, delete: bool, dirs: seq<string>, actions: seq<Action>, p: nat)
    requires Runs(Begin(n, workers, delete, dirs), actions)
    requires var log := After(Begin(n, workers, delete, dirs), actions).log; p < |log| && log[p].SourceRemoved?
    ensures delete
    ensures var log := After(Begin(n, workers, delete, dirs), actions).log;
            exists q :: 0 <= q < p && log[q].CopyPassed? && log[q].index == log[p].index &&
                (log[q].isDir ==> log[q].skipped == 0)
  {
    var s := After(Begin(n, workers, delete, dirs), actions);
    BeginInv(n, workers, delete, dirs);
    hide WP.Inv, StagesInv;
    RunKeeps(Begin(n, workers, delete, dirs), actions);
    SameOrders(Begin(n, workers, delete, dirs), actions);
    var q :| 0 <= q < |s.log[..p]| && Whole(s.log[..p][q], s.log[p].index);
    assert Whole(s.log[q], s.log[p].index);
    assert s.log[p] in s.log;
  }

  lemma {:induction false} SameOrders(s: State, actions: seq<Action>)
    requires Runs(s, actions)
    ensures After(s, actions).delete == s.delete
    decreases |actions|
  {
    if actions != [] {
      SameOrders(Next(s, actions[0]), actions[1..]);
    }
  }

  /** An expanded source directory is removed only if no cancel was seen and after every item succeeded and
      its source went, and after every listed directory below it. */
  lemma DirectoryGoesLast(n: nat, workers: nat, delete: bool, dirs: seq<string>, actions: seq<Action>, p: nat)
    requires Runs(Begin(n, workers, delete, dirs), actions)
    requires var log := After(Begin(n, workers, delete, dirs), actions).log; p < |log| && log[p].DirRemoved?
    ensures var s := After(Begin(n, workers, delete, dirs), actions);
            && s.pool.over == Some(AllDone) && !s.pool.canceled && delete
            && (forall i | 0 <= i < n :: SourceRemoved(i) in s.log[..p])
            && s.log[p].dir in dirs
            && (forall e | e in dirs && Below(e, s.log[p].dir) :: DirRemoved(e) in s.log[..p])
  {
    var s0 := Begin(n, workers, delete, dirs);
    var s := After(s0, actions);
    BeginInv(n, workers, delete, dirs);
    RunKeeps(s0, actions);
    SameOrders(s0, actions);
    hide Runs, After, StagesInv, CountersInv, WorkersInv, NothingDropped, RemovalsEarned;
    assert s.log[p] in s.log;
    DeepestFirstIsSorted(dirs);
    InSameMultiset(dirs, s.order);
    var k :| 0 <= k < |s.order| && s.order[k] == s.log[p].dir && AllGone(s.log[..p], s.order, k);
    forall e | e in dirs && Below(e, s.log[p].dir) ensures DirRemoved(e) in s.log[..p] {
      var j :| 0 <= j < |s.order| && s.order[j] == e;
      BelowComesFirst(s.order, j, k);
    }
  }

  lemma InSameMultiset(a: seq<string>, b: seq<string>)
    requires multiset(a) == multiset(b)
    ensures forall x :: x in a <==> x in b
  {
    forall x ensures x in a <==> x in b {
      assert x in multiset(a) <==> x in multiset(b);
    }
  }
}
