/** runMoveBatch: a move of many items on the worker pool, and what its retries
take over from one another. */
module MoveBatch {
  import opened Wrappers
  import opened WP = WorkerPool

  datatype Pair = Pair(source: string, dest: string)

  function PairOf(t: Track): Pair {
    Pair(t.source, t.dest)
  }

  /** The items of an earlier attempt that a retry takes as moved. */
  function Completed(prior: seq<Track>): map<Pair, Track> {
    if prior == [] then map[]
    else
      var last, before := prior[|prior| - 1], Completed(prior[..|prior| - 1]);
      if last.source != "" && last.ok then before[PairOf(last) := last] else before
  }

  method ReadPrior(prior: seq<Track>) returns (completed: map<Pair, Track>)
    ensures completed == Completed(prior)
  {
    completed := map[];
    for i := 0 to |prior|
      invariant completed == Completed(prior[..i])
    {
      assert prior[..i + 1][..i] == prior[..i];
      var result := prior[i];
      if result.source != "" && result.ok {
        completed := completed[Pair(result.source, result.dest) := result];
      }
    }
    assert prior[..|prior|] == prior;
  }

  /** The record says that this pair was moved. */
  predicate Recorded(tracked: seq<Track>, pair: Pair) {
    exists k | 0 <= k < |tracked| :: tracked[k].ok && PairOf(tracked[k]) == pair
  }

  lemma {:induction false} CompletedIsRecorded(prior: seq<Track>, pair: Pair)
    requires pair.source != ""
    ensures pair in Completed(prior) <==> Recorded(prior, pair)
    ensures pair in Completed(prior) ==> Completed(prior)[pair].ok && PairOf(Completed(prior)[pair]) == pair
  {
    if prior != [] {
      var n := |prior| - 1;
      CompletedIsRecorded(prior[..n], pair);
      if Recorded(prior[..n], pair) {
        var k :| 0 <= k < n && prior[..n][k].ok && PairOf(prior[..n][k]) == pair;
        assert prior[k].ok;
      }
      if Recorded(prior, pair) && PairOf(prior[n]) != pair {
        var k :| 0 <= k < |prior| && prior[k].ok && PairOf(prior[k]) == pair;
        assert prior[..n][k].ok;
      }
    }
  }

  // ------------------------------------------------------------------------ an attempt

  /** `attempted` are the items whose move was carried out, or tried, in this attempt. */
  datatype State = State(pool: Pool, items: seq<Pair>, completed: map<Pair, Track>, attempted: set<nat>)

  /** moveOne takes over an earlier result, or carries out the move and reports it. */
  datatype Action =
    | Plain(step: Step)
    | TakeOver(worker: nat)
    | Operate(worker: nat)
    | Report(worker: nat, ok: bool, bytes: nat)

  function Begin(items: seq<Pair>, prior: seq<Track>, workers: nat): State {
    State(WP.Start(|items|, workers), items, Completed(prior), {})
  }

  predicate At(s: State, w: nat) {
    s.pool.over.None? && w < |s.pool.workers| && s.pool.workers[w].Working?
    && s.pool.workers[w].index < |s.items| && s.pool.workers[w].index < |s.pool.counters.slots|
  }

  predicate Can(s: State, a: Action) {
    match a
    case Plain(step) => !step.Finish? && WP.Can(s.pool, step)
    case TakeOver(w) => At(s, w) && s.items[s.pool.workers[w].index] in s.completed
    case Operate(w) => At(s, w) && s.items[s.pool.workers[w].index] !in s.completed &&
        s.pool.workers[w].index !in s.attempted
    case Report(w, _, _) => At(s, w) && s.pool.workers[w].index in s.attempted
  }

  /** The step of the pool that an action is, if any. */
  function Lower(s: State, a: Action): Option<Step>
    requires Can(s, a)
  {
    match a
    case Plain(step) => Some(step)
    case TakeOver(w) => Some(Finish(w, s.completed[s.items[s.pool.workers[w].index]], 0))
    case Operate(_) => None
    case Report(w, ok, bytes) =>
      var item := s.items[s.pool.workers[w].index];
      Some(Finish(w, Track(item.source, item.dest, ok, bytes), if ok then bytes else 0))
  }

  function Next(s: State, a: Action): State
    requires Can(s, a)
  {
    match Lower(s, a)
    case Some(step) => s.(pool := WP.Next(s.pool, step))
    case None => s.(attempted := s.attempted + {s.pool.workers[a.worker].index})
  }

  predicate Runs(s: State, actions: seq<Action>)
    decreases |actions|
  {
    actions == [] || (Can(s, actions[0]) && Runs(Next(s, actions[0]), actions[1..]))
  }

  function After(s: State, actions: seq<Action>): State
    requires Runs(s, actions)
    decreases |actions|
  {
    if actions == [] then s else After(Next(s, actions[0]), actions[1..])
  }

  /** moveOne, as one worker goes through it: its slot is filled, and the move is carried out iff no earlier
      attempt is on record with it. */
  method MoveOne(s: State, w: nat) returns (actions: seq<Action>)
    requires At(s, w) && s.pool.workers[w].index !in s.attempted
    ensures Runs(s, actions)
    ensures var i, t := s.pool.workers[w].index, After(s, actions);
            && |t.pool.counters.slots| == |s.pool.counters.slots| && t.pool.counters.slots[i].Some? &&
                t.pool.workers == s.pool.workers[w := Idle]
            && t.attempted == (if s.items[i] in s.completed then s.attempted else s.attempted + {i})
            && (s.items[i] in s.completed ==>
                && t.pool.counters.slots[i].value == s.completed[s.items[i]]
                && t.pool.counters.bytes == s.pool.counters.bytes)
  {
    if s.items[s.pool.workers[w].index] in s.completed {
      RunsOne(s, TakeOver(w));
      return [TakeOver(w)];
    }
    var ok: bool, bytes: nat := *, *;
    RunsOne(s, Operate(w));
    RunsOne(Next(s, Operate(w)), Report(w, ok, bytes));
    assert [Operate(w), Report(w, ok, bytes)][1..] == [Report(w, ok, bytes)];
    return [Operate(w), Report(w, ok, bytes)];
  }

  lemma RunsOne(s: State, a: Action)
    requires Can(s, a)
    ensures Runs(s, [a]) && After(s, [a]) == Next(s, a)
  {
    assert [a][1..] == [];
  }

  function LowerAll(s: State, actions: seq<Action>): seq<Step>
    requires Runs(s, actions)
    decreases |actions|
  {
    if actions == [] then []
    else
      var lowered := match Lower(s, actions[0]) case Some(step) => [step] case None => [];
      lowered + LowerAll(Next(s, actions[0]), actions[1..])
  }

  /** An attempt is a run of the pool. */
  lemma {:induction false} IsPoolRun(s: State, actions: seq<Action>)
    requires Runs(s, actions)
    ensures WP.Runs(s.pool, LowerAll(s, actions)) && WP.After(s.pool, LowerAll(s, actions)) == After(s, actions).pool
    decreases |actions|
  {
    hide WP.Next, WP.Can;
    if actions != [] {
      IsPoolRun(Next(s, actions[0]), actions[1..]);
      var first, rest := Lower(s, actions[0]), LowerAll(Next(s, actions[0]), actions[1..]);
      if first.Some? {
        LowerOne(s, actions[0]);
        assert LowerAll(s, actions) == [first.value] + rest && ([first.value] + rest)[1..] == rest;
      } else {
        assert LowerAll(s, actions) == [] + rest == rest;
      }
    }
  }

  lemma LowerOne(s: State, a: Action)
    requires Can(s, a) && Lower(s, a).Some?
    ensures WP.Can(s.pool, Lower(s, a).value)
  {
  }

  // ---------------------------------------------------------------------- the invariant

  ghost predicate Inv(s: State) {
    && WP.Inv(s.pool) && |s.pool.counters.slots| == |s.items|
    && (forall pair | pair in s.completed :: s.completed[pair].ok && PairOf(s.completed[pair]) == pair)
    && (forall i | i in s.attempted :: i < |s.items| && s.items[i] !in s.completed)
    && (forall i | 0 <= i < |s.items| && s.pool.counters.slots[i].Some? ::
          && PairOf(s.pool.counters.slots[i].value) == s.items[i]
          && (s.items[i] in s.completed ==> s.pool.counters.slots[i].value.ok))
  }

  lemma BeginInv(items: seq<Pair>, prior: seq<Track>, workers: nat)
    ensures Inv(Begin(items, prior, workers))
  {
    WP.StartInv(|items|, workers);
    forall pair | pair in Completed(prior) ensures Completed(prior)[pair].ok && PairOf(Completed(prior)[pair]) == pair {
      Keys(prior, pair);
    }
  }

  lemma {:induction false} Keys(prior: seq<Track>, pair: Pair)
    requires pair in Completed(prior)
    ensures Completed(prior)[pair].ok && PairOf(Completed(prior)[pair]) == pair
  {
    if pair in Completed(prior[..|prior| - 1]) {
      Keys(prior[..|prior| - 1], pair);
    }
  }

  lemma StepKeeps(s: State, a: Action)
    requires Inv(s) && Can(s, a)
    ensures Inv(Next(s, a)) && Next(s, a).items == s.items && Next(s, a).completed == s.completed
  {
    hide WP.Inv;
    if Lower(s, a).Some? {
      WP.StepKeeps(s.pool, Lower(s, a).value);
    }
  }

  lemma {:induction false} RunKeeps(s: State, actions: seq<Action>)
    requires Inv(s) && Runs(s, actions)
    ensures Inv(After(s, actions)) && After(s, actions).items == s.items && After(s, actions).completed == s.completed
    decreases |actions|
  {
    hide Inv, Next, Can;
    if actions != [] {
      StepKeeps(s, actions[0]);
      RunKeeps(Next(s, actions[0]), actions[1..]);
    }
  }

  // ------------------------------------------------------------------- one attempt

  /** What the task remembers after an attempt: the last published items, or what it knew before. */
  function Tracked(s: State, prior: seq<Track>): seq<Track> {
    if s.pool.counters.published.Some? then s.pool.counters.published.value.items else prior
  }

  predicate Completes(s: State, actions: seq<Action>) {
    Runs(s, actions) && After(s, actions).pool.over.Some? && After(s, actions).pool.over != Some(Interrupted)
  }

  lemma {:induction false} InCompact(slots: seq<Option<Track>>, t: Track)
    ensures t in Compact(slots) <==> exists i :: 0 <= i < |slots| && slots[i] == Some(t)
  {
    if slots != [] {
      var n := |slots| - 1;
      InCompact(slots[..n], t);
      if t in Compact(slots[..n]) {
        var i :| 0 <= i < n && slots[..n][i] == Some(t);
        assert slots[i] == Some(t);
      }
      if i :| 0 <= i < |slots| && slots[i] == Some(t) {
        if i < n {
          assert slots[..n][i] == Some(t);
        }
      }
    }
  }

  /** Once something is published, the task remembers a pair as moved exactly when a slot says so. */
  lemma RecordedIsSlot(s: State, pair: Pair, prior: seq<Track>)
    requires Inv(s) && s.pool.counters.published.Some?
    ensures Recorded(Tracked(s, prior), pair) <==>
            exists i :: 0 <= i < |s.items| && s.items[i] == pair && s.pool.counters.slots[i].Some? &&
                s.pool.counters.slots[i].value.ok
  {
    var slots := s.pool.counters.slots;
    assert Tracked(s, prior) == Compact(slots);
    if Recorded(Tracked(s, prior), pair) {
      var k :| 0 <= k < |Compact(slots)| && Compact(slots)[k].ok && PairOf(Compact(slots)[k]) == pair;
      InCompact(slots, Compact(slots)[k]);
      var i :| 0 <= i < |slots| && slots[i] == Some(Compact(slots)[k]);
      assert s.items[i] == pair;
    }
    if i :| 0 <= i < |s.items| && s.items[i] == pair && slots[i].Some? && slots[i].value.ok {
      InCompact(slots, slots[i].value);
      var k :| 0 <= k < |Compact(slots)| && Compact(slots)[k] == slots[i].value;
      assert Compact(slots)[k].ok;
    }
  }

  /** A pair on record as moved is not moved in the attempt that reads the record. */
  lemma NotMovedAgain(items: seq<Pair>, prior: seq<Track>, workers: nat, actions: seq<Action>, i: nat)
    requires Runs(Begin(items, prior, workers), actions) && i < |items| && items[i].source != "" &&
        Recorded(prior, items[i])
    ensures i !in After(Begin(items, prior, workers), actions).attempted
  {
    BeginInv(items, prior, workers);
    CompletedIsRecorded(prior, items[i]);
    hide WP.Inv;
    RunKeeps(Begin(items, prior, workers), actions);
  }

  /** It stays on record exactly when the attempt published nothing or got as far as that pair. */
  lemma SuccessSurvivesIff(items: seq<Pair>, prior: seq<Track>, workers: nat, actions: seq<Action>, i: nat)
    requires Runs(Begin(items, prior, workers), actions) && i < |items| && items[i].source != "" &&
        Recorded(prior, items[i])
    ensures var s := After(Begin(items, prior, workers), actions);
            && |s.pool.counters.slots| == |items|
            && (Recorded(Tracked(s, prior), items[i]) <==>
                  s.pool.counters.published.None? || exists j ::
                      0 <= j < |items| && items[j] == items[i] && s.pool.counters.slots[j].Some?)
  {
    BeginInv(items, prior, workers);
    CompletedIsRecorded(prior, items[i]);
    RunKeeps(Begin(items, prior, workers), actions);
    var s := After(Begin(items, prior, workers), actions);
    if s.pool.counters.published.Some? {
      RecordedIsSlot(s, items[i], prior);
      hide WP.Inv;
      if j :| 0 <= j < |items| && items[j] == items[i] && s.pool.counters.slots[j].Some? {
        assert s.pool.counters.slots[j].value.ok;
      }
    }
  }

  /** A complete attempt fills every slot once, ends as its successes say, and remembers every success. */
  lemma CompleteAttempt(items: seq<Pair>, prior: seq<Track>, workers: nat, actions: seq<Action>)
    requires items != [] && Completes(Begin(items, prior, workers), actions)
    ensures var s := After(Begin(items, prior, workers), actions);
            && |s.pool.counters.slots| == |items| && s.pool.counters.published.Some?
            && (forall i | 0 <= i < |items| ::
                  && s.pool.counters.slots[i].Some?
                  && (s.pool.counters.slots[i].value.ok ==> Recorded(Tracked(s, prior), items[i])))
            && (s.pool.over == Some(PartialFailed) <==> 0 < Good(s.pool.counters.slots) < |items|)
            && (s.pool.over == Some(AllFailed) <==> Good(s.pool.counters.slots) == 0)
  {
    var s0 := Begin(items, prior, workers);
    var s := After(s0, actions);
    BeginInv(items, prior, workers);
    RunKeeps(s0, actions);
    IsPoolRun(s0, actions);
    hide Runs, After, LowerAll, WP.Runs, WP.After, Fillings, Filled, Good, Compact;
    EndIsExact(|items|, workers, LowerAll(s0, actions));
    PublishedIsExact(|items|, workers, LowerAll(s0, actions));
    forall i | 0 <= i < |items| && s.pool.counters.slots[i].value.ok ensures Recorded(Tracked(s, prior), items[i]) {
      RecordedIsSlot(s, items[i], prior);
    }
  }

  // ------------------------------------------------------------------- retries

  /** What the task remembers before attempt `k` of a history of attempts. */
  function PriorOf(items: seq<Pair>, workers: nat, attempts: seq<seq<Action>>, k: nat): seq<Track>
    requires k <= |attempts|
  {
    if k == 0 then []
    else
      var prior := PriorOf(items, workers, attempts, k - 1);
      var s := Begin(items, prior, workers);
      if Runs(s, attempts[k - 1]) then Tracked(After(s, attempts[k - 1]), prior) else prior
  }

  function StartOf(items: seq<Pair>, workers: nat, attempts: seq<seq<Action>>, k: nat): State
    requires k <= |attempts|
  {
    Begin(items, PriorOf(items, workers, attempts, k), workers)
  }

  /** Every attempt ran to its end without seeing a cancel. */
  ghost predicate AllComplete(items: seq<Pair>, workers: nat, attempts: seq<seq<Action>>) {
    forall k | 0 <= k < |attempts| :: Completes(StartOf(items, workers, attempts, k), attempts[k])
  }

  lemma {:induction false} SuccessIsKept(items: seq<Pair>, workers: nat, attempts: seq<seq<Action>>, a: nat, b: nat,
      i: nat)
    requires items != [] && AllComplete(items, workers, attempts) && a < b <= |attempts| && i < |items| &&
        items[i].source != ""
    requires var s := After(StartOf(items, workers, attempts, a), attempts[a]);
             i < |s.pool.counters.slots| && s.pool.counters.slots[i].Some? && s.pool.counters.slots[i].value.ok
    ensures Recorded(PriorOf(items, workers, attempts, b), items[i])
    decreases b
  {
    hide Runs, After, Recorded, Tracked;
    var prior := PriorOf(items, workers, attempts, b - 1);
    assert Completes(StartOf(items, workers, attempts, b - 1), attempts[b - 1]);
    CompleteAttempt(items, prior, workers, attempts[b - 1]);
    if a < b - 1 {
      SuccessIsKept(items, workers, attempts, a, b - 1, i);
      SuccessSurvivesIff(items, prior, workers, attempts[b - 1], i);
    }
  }

  /** Over any number of complete attempts, an item that succeeded is never moved again, nor is any other
      item of the same source and destination. */
  lemma NeverMovedAgain(items: seq<Pair>, workers: nat, attempts: seq<seq<Action>>, a: nat, b: nat, i: nat, j: nat)
    requires AllComplete(items, workers, attempts) && a < b < |attempts|
    requires i < |items| && j < |items| && items[i].source != "" && items[j] == items[i]
    requires var s := After(StartOf(items, workers, attempts, a), attempts[a]);
             i < |s.pool.counters.slots| && s.pool.counters.slots[i].Some? && s.pool.counters.slots[i].value.ok
    ensures j !in After(StartOf(items, workers, attempts, b), attempts[b]).attempted
  {
    SuccessIsKept(items, workers, attempts, a, b, i);
    assert Completes(StartOf(items, workers, attempts, b), attempts[b]);
    NotMovedAgain(items, PriorOf(items, workers, attempts, b), workers, attempts[b], j);
  }

  // ---------------------------------------------------------------- a canceled attempt

  lemma Then(s: State, actions: seq<Action>, a: Action)
    requires Runs(s, actions) && Can(After(s, actions), a)
    ensures Runs(s, actions + [a]) && After(s, actions + [a]) == Next(After(s, actions), a)
    decreases |actions|
  {
    hide Can, Next;
    if actions == [] {
      assert actions + [a] == [a] && [a][1..] == [];
    } else {
      assert (actions + [a])[0] == actions[0] && (actions + [a])[1..] == actions[1..] + [a];
      Then(Next(s, actions[0]), actions[1..], a);
    }
  }

  lemma Extend(s: State, actions: seq<Action>, now: State, a: Action) returns (more: seq<Action>, next: State)
    requires Runs(s, actions) && After(s, actions) == now && Can(now, a)
    ensures more == actions + [a] && Runs(s, more) && After(s, more) == next == Next(now, a)
  {
    hide Runs, After, Can, Next;
    Then(s, actions, a);
    more, next := actions + [a], Next(now, a);
  }

  /** The attempt loses the record that this pair was moved. */
  ghost predicate Forgets(items: seq<Pair>, prior: seq<Track>, workers: nat, actions: seq<Action>, pair: Pair) {
    var s := Begin(items, prior, workers);
    Runs(s, actions) && !Recorded(Tracked(After(s, actions), prior), pair)
  }

  /** Among the items that the workers take first there is another one. */
  ghost predicate OtherInReach(items: seq<Pair>, workers: nat, pair: Pair) {
    exists j | 0 <= j < |items| :: j < workers && items[j] != pair
  }

  function Idles(workers: seq<Worker>): nat {
    if workers == [] then 0 else Idles(workers[..|workers| - 1]) + (if workers[|workers| - 1].Idle? then 1 else 0)
  }

  lemma {:induction false} IdlesChange(workers: seq<Worker>, w: nat, x: Worker)
    requires w < |workers|
    ensures Idles(workers[w := x]) ==
            Idles(workers) - (if workers[w].Idle? then 1 else 0) + (if x.Idle? then 1 else 0)
  {
    var n := |workers| - 1;
    if w < n {
      IdlesChange(workers[..n], w, x);
      assert workers[w := x][..n] == workers[..n][w := x];
    } else {
      assert workers[w := x][..n] == workers[..n];
    }
  }

  ghost predicate PairFilled(s: State, pair: Pair) {
    var slots := s.pool.counters.slots;
    exists j | 0 <= j < |s.items| :: s.items[j] == pair && j < |slots| && slots[j].Some?
  }

  /** Nothing is over yet, so nothing beyond the first items was handed out. */
  predicate FirstRound(s: State) {
    s.pool.counters.published.None? && s.pool.next + Idles(s.pool.workers) <= |s.pool.workers|
  }

  lemma FirstIsPair(s: State, step: Step, pair: Pair)
    requires Inv(s) && step.Finish? && WP.Can(s.pool, step) && !OtherInReach(s.items, |s.pool.workers|, pair)
    requires PairFilled(s, pair) || FirstRound(s)
    ensures PairFilled(s.(pool := WP.Next(s.pool, step)), pair)
  {
    hide Idles, Filled, Good, Compact;
    var k, slots := s.pool.workers[step.worker].index, WP.Next(s.pool, step).counters.slots;
    if FirstRound(s) {
      assert k < s.pool.next <= |s.pool.workers|;
      assert s.items[k] == pair && slots[k].Some?;
    } else {
      var j :| 0 <= j < |s.items| && s.items[j] == pair && s.pool.counters.slots[j].Some?;
      assert slots[j].Some?;
    }
  }

  /** If the first items are all one pair, then nothing is published before that pair is over. */
  lemma FirstRoundKept(s: State, a: Action, pair: Pair)
    requires Inv(s) && Can(s, a) && !OtherInReach(s.items, |s.pool.workers|, pair)
    requires PairFilled(s, pair) || FirstRound(s)
    ensures |Next(s, a).pool.workers| == |s.pool.workers|
    ensures PairFilled(Next(s, a), pair) || FirstRound(Next(s, a))
  {
    hide Idles, Inv, OtherInReach, Compact;
    if Lower(s, a).Some? {
      var step := Lower(s, a).value;
      match step
      case Hand(w) => IdlesChange(s.pool.workers, w, Holding(s.pool.next));
      case Begin(w) => IdlesChange(s.pool.workers, w, WP.Next(s.pool, step).workers[w]);
      case Leave(w) => IdlesChange(s.pool.workers, w, Gone);
      case Finish(w, _, _) => FirstIsPair(s, step, pair);
      case _ =>
    }
  }

  lemma {:induction false} FirstRoundOver(s: State, actions: seq<Action>, pair: Pair)
    requires Inv(s) && Runs(s, actions) && !OtherInReach(s.items, |s.pool.workers|, pair)
    requires PairFilled(s, pair) || FirstRound(s)
    ensures PairFilled(After(s, actions), pair) || After(s, actions).pool.counters.published.None?
    decreases |actions|
  {
    hide Inv, Next, Can, OtherInReach, Idles;
    if actions != [] {
      StepKeeps(s, actions[0]);
      FirstRoundKept(s, actions[0], pair);
      FirstRoundOver(Next(s, actions[0]), actions[1..], pair);
    }
  }

  lemma {:induction false} AllIdle(n: nat)
    ensures Idles(seq(n, _ => Idle)) == n
  {
    if n > 0 {
      AllIdle(n - 1);
      assert seq(n, _ => Idle)[..n - 1] == seq(n - 1, _ => Idle);
    }
  }

  lemma ForgetsOther(items: seq<Pair>, prior: seq<Track>, workers: nat, actions: seq<Action>, i: nat)
    requires i < |items| && items[i].source != "" && Recorded(prior, items[i])
    requires Forgets(items, prior, workers, actions, items[i])
    ensures OtherInReach(items, workers, items[i])
  {
    hide Runs, After, Recorded, Tracked, Inv, OtherInReach, Idles;
    if !OtherInReach(items, workers, items[i]) {
      BeginInv(items, prior, workers);
      AllIdle(workers);
      FirstRoundOver(Begin(items, prior, workers), actions, items[i]);
      RunKeeps(Begin(items, prior, workers), actions);
      SuccessSurvivesIff(items, prior, workers, actions, i);
    }
  }

  // ------------------------------------------------------------------ how it is forgotten

  /** The first `m` items are handed out and nothing else happened. */
  function HandedOut(s: State, m: nat): State {
    s.(pool := s.pool.(workers := seq(|s.pool.workers|, (k: nat) => if k < m then Holding(k) else Idle), next := m))
  }

  lemma {:induction false} HandOut(items: seq<Pair>, prior: seq<Track>, workers: nat, m: nat)
      returns (actions: seq<Action>, s: State)
    requires m <= |items| && m <= workers
    ensures var s0 := Begin(items, prior, workers);
            Runs(s0, actions) && After(s0, actions) == s == HandedOut(s0, m)
  {
    hide Runs, After, Completed;
    var s0 := Begin(items, prior, workers);
    if m == 0 {
      actions, s := [], s0;
      NoActions(s0);
      assert s.pool.workers == HandedOut(s0, 0).pool.workers;
    } else {
      actions, s := HandOut(items, prior, workers, m - 1);
      actions, s := Extend(s0, actions, s, Plain(Hand(m - 1)));
      assert s.pool.workers == HandedOut(s0, m).pool.workers;
    }
  }

  lemma NoActions(s: State)
    ensures Runs(s, []) && After(s, []) == s
  {
  }

  /** Item `j` is over before all others. */
  ghost predicate OnlyOver(s: State, j: nat) {
    && |s.pool.counters.slots| == |s.items|
    && (forall k | 0 <= k < |s.items| :: s.pool.counters.slots[k].Some? <==> k == j)
    && s.pool.counters.published.Some?
  }

  ghost predicate Resting(s: State) {
    s.pool.over.None? && !s.pool.closed && s.pool.next <= |s.pool.counters.slots| &&
    forall w | 0 <= w < |s.pool.workers| :: !s.pool.workers[w].Working?
  }

  lemma OneOver(items: seq<Pair>, prior: seq<Track>, workers: nat, j: nat) returns (actions: seq<Action>, s: State)
    requires j < |items| && j < workers
    ensures Runs(Begin(items, prior, workers), actions) && After(Begin(items, prior, workers), actions) == s
    ensures OnlyOver(s, j) && s.items == items && Resting(s)
  {
    hide Runs, After, Completed, Compact;
    var s0 := Begin(items, prior, workers);
    actions, s := HandOut(items, prior, workers, j + 1);
    actions, s := Extend(s0, actions, s, Plain(Step.Begin(j)));
    if items[j] in s.completed {
      actions, s := Extend(s0, actions, s, TakeOver(j));
    } else {
      actions, s := Extend(s0, actions, s, Operate(j));
      actions, s := Extend(s0, actions, s, Report(j, false, 0));
    }
  }

  lemma OneOverForgets(items: seq<Pair>, prior: seq<Track>, workers: nat, actions: seq<Action>, i: nat, j: nat)
    requires i < |items| && items[i].source != "" && Recorded(prior, items[i])
    requires j < |items| && items[j] != items[i]
    requires Runs(Begin(items, prior, workers), actions)
    requires var s := After(Begin(items, prior, workers), actions); OnlyOver(s, j) && s.items == items
    ensures Forgets(items, prior, workers, actions, items[i])
  {
    hide Runs, After, Recorded, Tracked;
    SuccessSurvivesIff(items, prior, workers, actions, i);
  }

  /** The record of a move can be lost in a retry exactly if the workers begin with some other item too. */
  lemma ForgottenExactly(items: seq<Pair>, prior: seq<Track>, workers: nat, i: nat)
    requires i < |items| && items[i].source != "" && Recorded(prior, items[i])
    ensures (exists actions :: Forgets(items, prior, workers, actions, items[i])) <==>
            OtherInReach(items, workers, items[i])
  {
    hide Forgets;
    if actions :| Forgets(items, prior, workers, actions, items[i]) {
      ForgetsOther(items, prior, workers, actions, i);
    }
    if j :| 0 <= j < |items| && j < workers && items[j] != items[i] {
      var actions, s := OneOver(items, prior, workers, j);
      OneOverForgets(items, prior, workers, actions, i, j);
    }
  }

  // ------------------------------------------------------------- interrupted, and again

  /** After a cancel, workers that carry out nothing go away one by one. */
  lemma {:induction false} AllLeave(s0: State, before: seq<Action>, now: State, k: nat)
      returns (actions: seq<Action>, s: State)
    requires Runs(s0, before) && After(s0, before) == now && k <= |now.pool.workers|
    requires now.pool.over.None? && now.pool.closed && now.pool.canceled
    requires forall w | 0 <= w < |now.pool.workers| :: !now.pool.workers[w].Working?
    requires forall w | 0 <= w < k :: now.pool.workers[w].Gone?
    ensures Runs(s0, actions) && After(s0, actions) == s
    ensures s.pool.over == Some(Interrupted) && s.pool.counters == now.pool.counters
    decreases |now.pool.workers| - k
  {
    hide Runs, After;
    actions, s := before, now;
    if k == |now.pool.workers| {
      actions, s := Extend(s0, actions, s, Plain(End));
    } else {
      if now.pool.workers[k].Holding? {
        actions, s := Extend(s0, actions, s, Plain(Step.Begin(k)));
      } else if now.pool.workers[k].Idle? {
        actions, s := Extend(s0, actions, s, Plain(Leave(k)));
      }
      actions, s := AllLeave(s0, actions, s, k + 1);
    }
  }

  lemma Interrupt(s0: State, before: seq<Action>, now: State) returns (actions: seq<Action>, s: State)
    requires Runs(s0, before) && After(s0, before) == now && Resting(now)
    ensures Runs(s0, actions) && After(s0, actions) == s
    ensures s.pool.over == Some(Interrupted) && s.pool.counters == now.pool.counters
  {
    hide Runs, After;
    actions, s := Extend(s0, before, now, Plain(Cancel));
    actions, s := Extend(s0, actions, s,
        Plain(if now.pool.next == |now.pool.counters.slots| then Close else Abort));
    actions, s := AllLeave(s0, actions, s, 0);
  }

  /** One worker goes through the items in order. */
  lemma {:induction false} InOrder(items: seq<Pair>, prior: seq<Track>, workers: nat, m: nat)
      returns (actions: seq<Action>, s: State)
    requires m <= |items| && workers > 0
    ensures Runs(Begin(items, prior, workers), actions) && After(Begin(items, prior, workers), actions) == s
    ensures s.items == items && s.completed == Completed(prior) && |s.pool.counters.slots| == |items|
    ensures |s.pool.workers| == workers && s.pool.workers[0].Idle? && s.pool.next == m
    ensures s.pool.over.None? && !s.pool.closed && !s.pool.canceled && forall k | k in s.attempted :: k < m
  {
    hide Runs, After, Completed, Compact;
    var s0 := Begin(items, prior, workers);
    if m == 0 {
      NoActions(s0);
      return [], s0;
    }
    actions, s := InOrder(items, prior, workers, m - 1);
    actions, s := Extend(s0, actions, s, Plain(Hand(0)));
    actions, s := Extend(s0, actions, s, Plain(Step.Begin(0)));
    if items[m - 1] in s.completed {
      actions, s := Extend(s0, actions, s, TakeOver(0));
    } else {
      actions, s := Extend(s0, actions, s, Operate(0));
      actions, s := Extend(s0, actions, s, Report(0, true, 0));
    }
  }

  /** What is not on record can be moved. */
  lemma CanMove(items: seq<Pair>, prior: seq<Track>, workers: nat, i: nat) returns (actions: seq<Action>)
    requires i < |items| && workers > 0 && items[i] !in Completed(prior)
    ensures Runs(Begin(items, prior, workers), actions)
    ensures i in After(Begin(items, prior, workers), actions).attempted
  {
    hide Runs, After, Completed;
    var s0, s := Begin(items, prior, workers), Begin(items, prior, workers);
    actions, s := InOrder(items, prior, workers, i);
    actions, s := Extend(s0, actions, s, Plain(Hand(0)));
    actions, s := Extend(s0, actions, s, Plain(Step.Begin(0)));
    actions, s := Extend(s0, actions, s, Operate(0));
  }

  /** A retry is interrupted, and the one after it carries out the move of item `i`. */
  ghost predicate MovesAgain(items: seq<Pair>, prior: seq<Track>, workers: nat, second: seq<Action>,
      third: seq<Action>, i: nat) {
    var s := Begin(items, prior, workers);
    && Runs(s, second) && After(s, second).pool.over == Some(Interrupted)
    && var t := Begin(items, Tracked(After(s, second), prior), workers);
       Runs(t, third) && i in After(t, third).attempted
  }

  /** Among interrupted attempts the promise fails: a move on record is carried out again after an interrupted
      retry, exactly if the workers begin with some other item too. */
  lemma CanceledAttemptForgets(items: seq<Pair>, prior: seq<Track>, workers: nat, i: nat)
    requires i < |items| && items[i].source != "" && Recorded(prior, items[i])
    ensures (exists second, third :: MovesAgain(items, prior, workers, second, third, i)) <==>
            OtherInReach(items, workers, items[i])
  {
    hide Runs, After, Tracked, Recorded;
    var s0 := Begin(items, prior, workers);
    if second, third :| MovesAgain(items, prior, workers, second, third, i) {
      var left := Tracked(After(s0, second), prior);
      if Recorded(left, items[i]) {
        NotMovedAgain(items, left, workers, third, i);
      }
      ForgetsOther(items, prior, workers, second, i);
    }
    if j :| 0 <= j < |items| && j < workers && items[j] != items[i] {
      var second, third := Again(items, prior, workers, i, j);
    }
  }

  lemma Again(items: seq<Pair>, prior: seq<Track>, workers: nat, i: nat, j: nat)
      returns (second: seq<Action>, third: seq<Action>)
    requires i < |items| && items[i].source != "" && Recorded(prior, items[i])
    requires j < |items| && j < workers && items[j] != items[i]
    ensures MovesAgain(items, prior, workers, second, third, i)
  {
    hide Runs, After, Recorded, Completed, Resting, OnlyOver, Inv;
    var s0, s := Begin(items, prior, workers), Begin(items, prior, workers);
    second, s := OneOver(items, prior, workers, j);
    OneOverForgets(items, prior, workers, second, i, j);
    var left := Tracked(s, prior);
    second, s := Interrupt(s0, second, s);
    CompletedIsRecorded(left, items[i]);
    third := CanMove(items, left, workers, i);
  }
}
