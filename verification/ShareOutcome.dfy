/** Folding a provider's save outcome into one result per selected entry. */
module ShareOutcome {
  import opened Wrappers

  datatype Entry = Entry(id: string, name: string, size: int)

  datatype Item = Item(
    sourceId: string,
    sourceName: string,
    sourceSize: int,
    saved: Option<Entry>,
    savedId: string,
    savedName: string,
    error: Option<string>)

  datatype SaveState = Queued | Running | Succeeded | Partial | Failed

  datatype Outcome = Outcome(handle: string, state: SaveState, items: seq<Item>) {
    predicate Complete() {
      state == Succeeded || state == Partial || state == Failed
    }
  }

  predicate Matches(item: Item, e: Entry) {
    item.sourceId == e.id || item.sourceName == e.name || (item.saved.Some? && item.saved.value.name == e.name)
  }

  const UNREPORTED := "provider did not report this entry"

  /** What an entry the provider did not report becomes. */
  function Missing(e: Entry): Item {
    Item(e.id, e.name, e.size, None, "", "", Some(UNREPORTED))
  }

  /** A provider item taken for an entry. */
  function Claim(item: Item, e: Entry): Item {
    item.(sourceId := e.id, sourceName := e.name, sourceSize := if item.sourceSize == 0 then e.size
        else item.sourceSize)
  }

  function FailedCount(items: seq<Item>): nat {
    if items == [] then 0
    else FailedCount(items[..|items| - 1]) + (if items[|items| - 1].error.Some? then 1 else 0)
  }

  // -------------------------------------------------------------------- matching

  /** The first item at or after `from` that is free and matches, or -1. */
  function FirstMatch(items: seq<Item>, used: set<int>, e: Entry, from: nat): (k: int)
    ensures k == -1 || (from <= k < |items| && k !in used && Matches(items[k], e))
    ensures forall i | from <= i < (if k < 0 then |items| else k) :: i in used || !Matches(items[i], e)
    decreases |items| - from
  {
    if from >= |items| then -1
    else if from !in used && Matches(items[from], e) then from
    else FirstMatch(items, used, e, from + 1)
  }

  /** Which provider item each entry takes, in the order of the entries. */
  function Picks(items: seq<Item>, used: set<int>, entries: seq<Entry>): (picks: seq<int>)
    ensures |picks| == |entries|
    decreases |entries|
  {
    if entries == [] then []
    else
      var k := FirstMatch(items, used, entries[0], 0);
      [k] + Picks(items, if k < 0 then used else used + {k}, entries[1..])
  }

  function Taken(items: seq<Item>, k: int, e: Entry): Item
    requires k < |items|
  {
    if k < 0 then Missing(e) else Claim(items[k], e)
  }

  /** Every pick matches its entry, was free, and is taken by no other entry. */
  lemma {:induction false} PicksAreSound(items: seq<Item>, used: set<int>, entries: seq<Entry>)
    ensures var picks := Picks(items, used, entries);
            && (forall j | 0 <= j < |entries| :: -1 <= picks[j] < |items|)
            && (forall j | 0 <= j < |entries| && picks[j] >= 0 ::
                picks[j] !in used && Matches(items[picks[j]], entries[j]))
            && (forall i, j | 0 <= i < j < |entries| && picks[i] >= 0 :: picks[i] != picks[j])
    decreases |entries|
  {
    if entries != [] {
      var k := FirstMatch(items, used, entries[0], 0);
      PicksAreSound(items, if k < 0 then used else used + {k}, entries[1..]);
    }
  }

  /** The results for the entries still to come, with the provider items in `used` taken. */
  function ResultsFrom(items: seq<Item>, used: set<int>, entries: seq<Entry>): (out: seq<Item>)
    ensures |out| == |entries|
    decreases |entries|
  {
    if entries == [] then []
    else
      var k := FirstMatch(items, used, entries[0], 0);
      [Taken(items, k, entries[0])] + ResultsFrom(items, if k < 0 then used else used + {k}, entries[1..])
  }

  function ReconcileItems(items: seq<Item>, entries: seq<Entry>): seq<Item> {
    ResultsFrom(items, {}, entries)
  }

  lemma {:induction false} ResultsFollowPicks(items: seq<Item>, used: set<int>, entries: seq<Entry>)
    ensures var picks, out := Picks(items, used, entries), ResultsFrom(items, used, entries);
            forall j | 0 <= j < |entries| :: picks[j] < |items| && out[j] == Taken(items, picks[j], entries[j])
    decreases |entries|
  {
    hide FirstMatch, Taken;
    if entries != [] {
      var k := FirstMatch(items, used, entries[0], 0);
      ResultsFollowPicks(items, if k < 0 then used else used + {k}, entries[1..]);
    }
  }

  function StateFor(failed: nat, total: nat): SaveState {
    if failed == 0 then Succeeded else if failed == total then Failed else Partial
  }

  function Reconcile(o: Outcome, entries: seq<Entry>): Outcome {
    if !o.Complete() || entries == [] then o
    else
      var items := ReconcileItems(o.items, entries);
      Outcome(o.handle, StateFor(FailedCount(items), |items|), items)
  }

  // -------------------------------------------------------------------- the loops

  method ReconcileShareOutcome(outcome: Outcome, entries: seq<Entry>) returns (r: Outcome)
    ensures r == Reconcile(outcome, entries)
  {
    if !outcome.Complete() || |entries| == 0 {
      return outcome;
    }
    hide ResultsFrom, FirstMatch, FailedCount, Taken;
    var used := new bool[|outcome.items|](_ => false);
    ghost var taken: set<int> := {};
    var items: seq<Item> := [];
    var failed := 0;
    assert FailedCount([]) == 0 by { NoneFailed(); }
    assert entries[0..] == entries;
    for j := 0 to |entries|
      invariant forall i | 0 <= i < used.Length :: used[i] <==> i in taken
      invariant |items| == j && failed == FailedCount(items)
      invariant ResultsFrom(outcome.items, {}, entries) == items + ResultsFrom(outcome.items, taken, entries[j..])
    {
      ghost var before := taken;
      var item;
      item, taken := TakeFor(outcome.items, used, taken, entries[j]);
      ResultsStep(outcome.items, before, entries[j..]);
      assert entries[j..][1..] == entries[j + 1..];
      Reassociate(items, item, ResultsFrom(outcome.items, taken, entries[j + 1..]));
      OneMoreResult(items, item);
      if item.error.Some? {
        failed := failed + 1;
      }
      items := items + [item];
    }
    assert entries[|entries|..] == [];
    assert ResultsFrom(outcome.items, taken, []) == [] && items + [] == items;
    var state := if failed == 0 then Succeeded else if failed == |items| then Failed else Partial;
    r := Outcome(outcome.handle, state, items);
  }

  /** The body of the loop for one entry: the first free match is marked used and rewritten. */
  method TakeFor(items: seq<Item>, used: array<bool>, ghost taken: set<int>, entry: Entry)
      returns (item: Item, ghost more: set<int>)
    requires used.Length == |items| && forall i | 0 <= i < used.Length :: used[i] <==> i in taken
    modifies used
    ensures var k := FirstMatch(items, taken, entry, 0);
            item == Taken(items, k, entry) && more == if k < 0 then taken else taken + {k}
    ensures forall i | 0 <= i < used.Length :: used[i] <==> i in more
  {
    hide FirstMatch;
    var index := FindFree(items, used, taken, entry);
    if index < 0 {
      return Missing(entry), taken;
    }
    used[index] := true;
    item := items[index];
    item := item.(sourceId := entry.id, sourceName := entry.name);
    if item.sourceSize == 0 {
      item := item.(sourceSize := entry.size);
    }
    more := taken + {index};
  }

  lemma Reassociate(items: seq<Item>, item: Item, rest: seq<Item>)
    ensures items + ([item] + rest) == items + [item] + rest
  {
  }

  lemma NoneFailed()
    ensures FailedCount([]) == 0
  {
  }

  lemma ResultsStep(items: seq<Item>, used: set<int>, entries: seq<Entry>)
    requires entries != []
    ensures var k := FirstMatch(items, used, entries[0], 0);
            ResultsFrom(items, used, entries)
            == [Taken(items, k, entries[0])] + ResultsFrom(items, if k < 0 then used else used + {k}, entries[1..])
  {
    hide FirstMatch;
  }

  lemma OneMoreResult(items: seq<Item>, item: Item)
    ensures FailedCount(items + [item]) == FailedCount(items) + (if item.error.Some? then 1 else 0)
  {
    assert (items + [item])[..|items|] == items;
  }

  method FindFree(items: seq<Item>, used: array<bool>, ghost taken: set<int>, entry: Entry) returns (index: int)
    requires used.Length == |items| && forall i | 0 <= i < used.Length :: used[i] <==> i in taken
    ensures index == FirstMatch(items, taken, entry, 0)
  {
    index := -1;
    for i := 0 to |items|
      invariant FirstMatch(items, taken, entry, 0) == FirstMatch(items, taken, entry, i)
    {
      if used[i] {
        continue;
      }
      if Matches(items[i], entry) {
        index := i;
        return;
      }
    }
  }

  datatype TaskState = TaskRunning | TaskSucceeded | TaskPartialFailed | TaskFailed

  datatype Tracked = Tracked(itemId: string, path: string, total: int, done: int, remoteId: string, failed: bool)

  function Track(item: Item): Tracked {
    var name := if item.sourceName == "" && item.saved.Some? then item.saved.value.name else item.sourceName;
    if item.saved.Some? then
      Tracked(item.sourceId, name, item.sourceSize, item.saved.value.size, item.saved.value.id, item.error.Some?)
    else Tracked(item.sourceId, name, item.sourceSize, 0, "", item.error.Some?)
  }

  function ResultState(o: Outcome): TaskState {
    var failed := FailedCount(o.items);
    if !o.Complete() then TaskRunning
    else if failed < |o.items| && failed == 0 then TaskSucceeded
    else if failed < |o.items| then TaskPartialFailed
    else TaskFailed
  }

  method ShareOutcomeResult(outcome: Outcome) returns (state: TaskState, tracked: seq<Tracked>, saved: nat, failed: nat)
    ensures state == ResultState(outcome)
    ensures saved + failed == |outcome.items| && failed == FailedCount(outcome.items)
    ensures |tracked| == |outcome.items| && forall i | 0 <= i < |tracked| :: tracked[i] == Track(outcome.items[i])
  {
    tracked, saved, failed := [], 0, 0;
    for i := 0 to |outcome.items|
      invariant |tracked| == i && forall k | 0 <= k < i :: tracked[k] == Track(outcome.items[k])
      invariant saved + failed == i && failed == FailedCount(outcome.items[..i])
    {
      var item := outcome.items[i];
      assert outcome.items[..i + 1][..i] == outcome.items[..i];
      var t := Tracked(item.sourceId, item.sourceName, item.sourceSize, 0, "", false);
      if item.saved.Some? {
        t := t.(remoteId := item.saved.value.id);
        if t.path == "" {
          t := t.(path := item.saved.value.name);
        }
        t := t.(done := item.saved.value.size);
      }
      if item.error.Some? {
        t := t.(failed := true);
        failed := failed + 1;
      } else {
        saved := saved + 1;
      }
      tracked := tracked + [t];
    }
    assert outcome.items[..|outcome.items|] == outcome.items;
    if !outcome.Complete() {
      state := TaskRunning;
    } else if saved > 0 && failed == 0 {
      state := TaskSucceeded;
    } else if saved > 0 && failed > 0 {
      state := TaskPartialFailed;
    } else {
      state := TaskFailed;
    }
  }

  // ------------------------------------------------------------------- properties

  /** One result per selected entry, in order; each provider item used at most
      once; an entry without one is failed. */
  lemma ReconcileCovers(o: Outcome, entries: seq<Entry>)
    requires o.Complete() && entries != []
    ensures var r, picks := Reconcile(o, entries), Picks(o.items, {}, entries);
            && r.Complete() && |r.items| == |entries| == |picks|
            && (forall j | 0 <= j < |entries| ::
                r.items[j].sourceId == entries[j].id && r.items[j].sourceName == entries[j].name)
            && (forall j | 0 <= j < |entries| && r.items[j].sourceSize == 0 :: entries[j].size == 0)
            && (forall j | 0 <= j < |entries| :: -1 <= picks[j] < |o.items|)
            && (forall j | 0 <= j < |entries| && picks[j] < 0 :: r.items[j] == Missing(entries[j]))
            && (forall j | 0 <= j < |entries| && picks[j] >= 0 ::
                  Matches(o.items[picks[j]], entries[j])
                  && r.items[j].saved == o.items[picks[j]].saved && r.items[j].error == o.items[picks[j]].error)
            && (forall i, j | 0 <= i < j < |entries| && picks[i] >= 0 :: picks[i] != picks[j])
  {
    PicksAreSound(o.items, {}, entries);
    ResultsFollowPicks(o.items, {}, entries);
  }

  /** The reconciled state and the task state computed from it agree. */
  lemma StatesAgree(o: Outcome, entries: seq<Entry>)
    requires o.Complete() && entries != []
    ensures var r := Reconcile(o, entries);
            && (r.state == Succeeded <==> ResultState(r) == TaskSucceeded)
            && (r.state == Partial <==> ResultState(r) == TaskPartialFailed)
            && (r.state == Failed <==> ResultState(r) == TaskFailed)
            && ResultState(r) != TaskRunning
            && FailedCount(r.items) <= |entries|
  {
    FailedAtMost(Reconcile(o, entries).items);
  }

  lemma {:induction false} FailedAtMost(items: seq<Item>)
    ensures FailedCount(items) <= |items|
  {
    if items != [] {
      FailedAtMost(items[..|items| - 1]);
    }
  }

  function UpTo(n: nat): (s: set<int>)
    ensures forall i :: i in s <==> 0 <= i < n
  {
    if n == 0 then {} else UpTo(n - 1) + {n - 1}
  }

  /** On items that already stand one per entry, each entry finds its own. */
  lemma {:induction false} OwnPicks(items: seq<Item>, entries: seq<Entry>, from: nat)
    requires |items| == |entries| && from <= |items|
    requires forall j | 0 <= j < |items| :: items[j].sourceId == entries[j].id
    ensures Consecutive(Picks(items, UpTo(from), entries[from..]), from)
    decreases |items| - from
  {
    if from < |items| {
      FirstFree(items, entries[from], from, 0);
      assert entries[from..][1..] == entries[from + 1..];
      OwnPicks(items, entries, from + 1);
    }
  }

  predicate Consecutive(picks: seq<int>, from: int) {
    forall j | 0 <= j < |picks| :: picks[j] == from + j
  }

  lemma {:induction false} FirstFree(items: seq<Item>, e: Entry, n: nat, from: nat)
    requires from <= n < |items| && Matches(items[n], e)
    ensures FirstMatch(items, UpTo(n), e, from) == n
    decreases n - from
  {
    if from < n {
      FirstFree(items, e, n, from + 1);
    }
  }

  /** Reconciling again changes nothing, duplicate ids and names included. */
  lemma ReconcileIsIdempotent(o: Outcome, entries: seq<Entry>)
    ensures Reconcile(Reconcile(o, entries), entries) == Reconcile(o, entries)
  {
    if o.Complete() && entries != [] {
      ReconcileCovers(o, entries);
      OwnItems(ReconcileItems(o.items, entries), entries);
    }
  }

  lemma OwnItems(items: seq<Item>, entries: seq<Entry>)
    requires |items| == |entries|
    requires forall j | 0 <= j < |items| :: items[j].sourceId == entries[j].id && items[j].sourceName == entries[j].name
    requires forall j | 0 <= j < |items| && items[j].sourceSize == 0 :: entries[j].size == 0
    ensures ReconcileItems(items, entries) == items
  {
    hide Picks, Matches;
    OwnPicks(items, entries, 0);
    assert UpTo(0) == {} && entries[0..] == entries;
    ResultsFollowPicks(items, {}, entries);
    var out := ReconcileItems(items, entries);
    forall j | 0 <= j < |items| ensures out[j] == items[j] {
      assert Picks(items, {}, entries)[j] == j;
    }
  }

  /** What the first `j` entries took. */
  function Before(picks: seq<int>, j: nat): set<int>
    requires j <= |picks|
  {
    set i | 0 <= i < j && picks[i] >= 0 :: picks[i]
  }

  /** Each entry takes the first matching item that no entry before it took. */
  lemma {:induction false} PickIs(items: seq<Item>, used: set<int>, entries: seq<Entry>, j: nat)
    requires j < |entries|
    ensures var picks := Picks(items, used, entries);
        picks[j] == FirstMatch(items, used + Before(picks, j), entries[j], 0)
    decreases |entries|
  {
    var picks := Picks(items, used, entries);
    if j == 0 {
      assert used + Before(picks, 0) == used;
    } else {
      hide FirstMatch;
      var k := picks[0];
      var more, rest := if k < 0 then used
          else used + {k}, Picks(items, if k < 0 then used else used + {k}, entries[1..]);
      PickIs(items, more, entries[1..], j - 1);
      assert forall i | 0 <= i < j - 1 :: rest[i] == picks[i + 1];
      assert forall i | 1 <= i < j :: picks[i] == rest[i - 1];
      assert used + Before(picks, j) == more + Before(rest, j - 1);
    }
  }

  /** An entry is reported missing exactly if every item that matches it was taken by an entry before it. */
  lemma MissingExactly(o: Outcome, entries: seq<Entry>, j: nat)
    requires j < |entries|
    ensures var picks := Picks(o.items, {}, entries);
            picks[j] < 0 <==> forall k | 0 <= k < |o.items| && Matches(o.items[k], entries[j]) :: k in picks[..j]
  {
    hide Picks;
    var picks := Picks(o.items, {}, entries);
    PickIs(o.items, {}, entries, j);
    PicksAreSound(o.items, {}, entries);
    assert forall k | 0 <= k < |o.items| :: k in Before(picks, j) <==> k in picks[..j];
  }

  /** No provider item matches two of the entries. */
  ghost predicate Unambiguous(items: seq<Item>, entries: seq<Entry>) {
    forall k, i, j | 0 <= k < |items| && 0 <= i < j < |entries| ::
      !(Matches(items[k], entries[i]) && Matches(items[k], entries[j]))
  }

  /** Without ambiguity that is when no provider item matches it. */
  lemma MissingIsExact(o: Outcome, entries: seq<Entry>, j: nat)
    requires Unambiguous(o.items, entries) && j < |entries|
    ensures Picks(o.items, {}, entries)[j] < 0 <==> forall k | 0 <= k < |o.items| :: !Matches(o.items[k], entries[j])
  {
    hide Picks;
    PicksAreSound(o.items, {}, entries);
    MissingExactly(o, entries, j);
  }

  /** `own[j]` is an item that the provider reported under the id of the j-th entry, and no two are the same. */
  predicate Owns(items: seq<Item>, entries: seq<Entry>, own: seq<int>) {
    && |own| == |entries|
    && (forall j | 0 <= j < |own| :: 0 <= own[j] < |items| && items[own[j]].sourceId == entries[j].id)
    && (forall i, j | 0 <= i < j < |own| :: own[i] != own[j])
  }

  /** Whatever matches an entry and stands before its own item is the own item of an entry before it. */
  predicate InOrder(items: seq<Item>, entries: seq<Entry>, own: seq<int>)
    requires |own| == |entries|
  {
    forall j, m | 0 <= j < |own| && 0 <= m < own[j] && m < |items| && Matches(items[m], entries[j]) :: m in own[..j]
  }

  /** Every entry gets the item that was reported under its id exactly if the items stand in such an order;
      otherwise an item that matches by its name is taken first, by an entry that it was not reported for. */
  lemma OwnExactly(items: seq<Item>, entries: seq<Entry>, own: seq<int>)
    requires Owns(items, entries, own)
    ensures Picks(items, {}, entries) == own <==> InOrder(items, entries, own)
  {
    hide Picks, Matches;
    var picks := Picks(items, {}, entries);
    if InOrder(items, entries, own) {
      InOrderOwns(items, entries, own, |own|);
      assert picks[..|own|] == picks && own[..|own|] == own;
    }
    if picks == own {
      forall j, m | 0 <= j < |own| && 0 <= m < own[j] && Matches(items[m], entries[j]) ensures m in own[..j] {
        PickIs(items, {}, entries, j);
        assert m in Before(picks, j);
      }
    }
  }

  lemma {:induction false} InOrderOwns(items: seq<Item>, entries: seq<Entry>, own: seq<int>, n: nat)
    requires Owns(items, entries, own) && InOrder(items, entries, own) && n <= |own|
    ensures Picks(items, {}, entries)[..n] == own[..n]
  {
    hide Picks;
    var picks := Picks(items, {}, entries);
    if n > 0 {
      var j := n - 1;
      InOrderOwns(items, entries, own, j);
      PickIs(items, {}, entries, j);
      assert forall i | 0 <= i < j :: picks[i] == picks[..j][i] == own[..j][i];
      forall m | 0 <= m < own[j] && Matches(items[m], entries[j]) ensures m in Before(picks, j) {
        var i :| 0 <= i < j && own[..j][i] == m;
        assert picks[i] == m;
      }
      assert picks[j] == own[j];
    }
  }

  /** Where ambiguity hurts: an item reported for the second entry (by id) is
      taken by the first one (by name), and the second is reported missing. */
  lemma NameBeatsId()
    ensures var entries := [Entry("1", "a", 0), Entry("2", "b", 0)];
            var second, first := Item("2", "a", 0, None, "r2", "", None), Item("1", "", 0, None, "r1", "", None);
            var r := Reconcile(Outcome("", Succeeded, [second, first]), entries);
            && r.items[0].savedId == "r2"
            && r.items[1] == Missing(entries[1])
            && r.state == Partial
  {
    var entries := [Entry("1", "a", 0), Entry("2", "b", 0)];
    var second, first := Item("2", "a", 0, None, "r2", "", None), Item("1", "", 0, None, "r1", "", None);
    var items := [second, first];
    assert FirstMatch(items, {}, entries[0], 0) == 0;
    assert entries[1..] == [entries[1]];
    assert {} + {0} == {0};
    assert FirstMatch(items, {0}, entries[1], 2) == -1;
    assert FirstMatch(items, {0}, entries[1], 1) == -1;
    assert FirstMatch(items, {0}, entries[1], 0) == -1;
    assert [entries[1]][1..] == [];
    assert Picks(items, {0}, [entries[1]]) == [-1];
    assert Picks(items, {}, entries) == [0, -1];
    var out := ReconcileItems(items, entries);
    assert out == [Claim(second, entries[0]), Missing(entries[1])];
    assert out[..1] == [out[0]] && out[..1][..0] == [];
    assert FailedCount(out[..1]) == 0;
    assert FailedCount(out) == 1;
  }
}
