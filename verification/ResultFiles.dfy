/** Folding a provider's file lists into the retained one (mergeOfflineResultFiles). */
module ResultFiles {
  import opened Wrappers

  datatype File = File(index: int, name: string, size: int, remoteId: string, path: string)

  /** What an earlier file may be recognized by. */
  datatype Key = ById(id: string) | ByPath(path: string) | ByName(name: string) | ByIndex(index: int)

  predicate Has(f: File, key: Key) {
    match key
    case ById(id) => f.remoteId == id
    case ByPath(path) => f.path == path
    case ByName(name) => f.name == name
    case ByIndex(index) => f.index == index
  }

  /** The last file with the key, as a map filled in order would hold it. */
  function Last(files: seq<File>, key: Key): Option<File> {
    if files == [] then None
    else if Has(files[|files| - 1], key) then Some(files[|files| - 1])
    else Last(files[..|files| - 1], key)
  }

  function Count(files: seq<File>, key: Key): nat {
    if files == [] then 0
    else Count(files[..|files| - 1], key) + (if Has(files[|files| - 1], key) then 1 else 0)
  }

  /** The earlier file an incoming one continues: by id, else by path, else by a name only one earlier
      file has, else (for a file with none of the three) by an index only one earlier file has. */
  function Previous(existing: seq<File>, f: File): Option<File> {
    var byId := if f.remoteId != "" then Last(existing, ById(f.remoteId)) else None;
    if byId.Some? then byId
    else
      var byPath := if f.path != "" then Last(existing, ByPath(f.path)) else None;
      if byPath.Some? then byPath
      else if f.name != "" && Count(existing, ByName(f.name)) == 1 then Last(existing, ByName(f.name))
      else if f.name == "" && f.remoteId == "" && f.path == "" && Count(existing, ByIndex(f.index)) == 1 then
        Last(existing, ByIndex(f.index))
      else None
  }

  /** What the incoming file leaves empty is taken from the earlier one. */
  function Fill(f: File, previous: File): File {
    File(
      if f.index == 0 then previous.index else f.index,
      if f.name == "" then previous.name else f.name,
      if f.size == 0 then previous.size else f.size,
      if f.remoteId == "" then previous.remoteId else f.remoteId,
      if f.path == "" then previous.path else f.path)
  }

  function MergeOne(existing: seq<File>, f: File): File {
    var previous := Previous(existing, f);
    if previous.Some? then Fill(f, previous.value) else f
  }

  function Merge(existing: seq<File>, incoming: seq<File>): seq<File> {
    if incoming == [] then existing
    else if existing == [] then incoming
    else seq(|incoming|, i requires 0 <= i < |incoming| => MergeOne(existing, incoming[i]))
  }

  /** `m` is the lookup map filled from `files` for one kind of key, empty keys left out. */
  ghost predicate IdMap(m: map<string, File>, files: seq<File>) {
    forall k :: if k != "" && Last(files, ById(k)).Some? then k in m && Last(files, ById(k)) == Some(m[k]) else k !in m
  }

  ghost predicate PathMap(m: map<string, File>, files: seq<File>) {
    forall k :: if k != "" && Last(files, ByPath(k)).Some? then k in m &&
        Last(files, ByPath(k)) == Some(m[k]) else k !in m
  }

  ghost predicate NameMap(m: map<string, File>, n: map<string, nat>, files: seq<File>) {
    && (forall k :: if k != "" && Last(files, ByName(k)).Some? then k in m &&
        Last(files, ByName(k)) == Some(m[k]) else k !in m)
    && (forall k :: if k != "" && Count(files, ByName(k)) > 0 then k in n &&
        n[k] == Count(files, ByName(k)) else k !in n)
  }

  ghost predicate IndexMap(m: map<int, File>, n: map<int, nat>, files: seq<File>) {
    && (forall k :: if Last(files, ByIndex(k)).Some? then k in m && Last(files, ByIndex(k)) == Some(m[k]) else k !in m)
    && (forall k :: if Count(files, ByIndex(k)) > 0 then k in n && n[k] == Count(files, ByIndex(k)) else k !in n)
  }

  lemma IdMapStep(m: map<string, File>, files: seq<File>, file: File)
    requires IdMap(m, files)
    ensures IdMap(if file.remoteId != "" then m[file.remoteId := file] else m, files + [file])
  {
    assert (files + [file])[..|files|] == files;
  }

  lemma PathMapStep(m: map<string, File>, files: seq<File>, file: File)
    requires PathMap(m, files)
    ensures PathMap(if file.path != "" then m[file.path := file] else m, files + [file])
  {
    assert (files + [file])[..|files|] == files;
  }

  function Bump<K>(n: map<K, nat>, k: K): map<K, nat> {
    n[k := (if k in n then n[k] else 0) + 1]
  }

  lemma NameMapStep(m: map<string, File>, n: map<string, nat>, files: seq<File>, file: File)
    requires NameMap(m, n, files)
    ensures if file.name != "" then NameMap(m[file.name := file], Bump(n, file.name), files + [file])
        else NameMap(m, n, files + [file])
  {
    hide Last, Count;
    forall k ensures Last(files + [file], ByName(k)) == (if file.name == k then Some(file) else Last(files, ByName(k)))
                  && Count(files + [file], ByName(k)) == Count(files, ByName(k)) + (if file.name == k then 1 else 0)
    {
      OneMore(files, file, ByName(k));
    }
  }

  lemma OneMore(files: seq<File>, file: File, key: Key)
    ensures Last(files + [file], key) == (if Has(file, key) then Some(file) else Last(files, key))
    ensures Count(files + [file], key) == Count(files, key) + (if Has(file, key) then 1 else 0)
  {
    assert (files + [file])[..|files|] == files;
  }

  lemma IndexMapStep(m: map<int, File>, n: map<int, nat>, files: seq<File>, file: File)
    requires IndexMap(m, n, files)
    ensures IndexMap(m[file.index := file], Bump(n, file.index), files + [file])
  {
    assert (files + [file])[..|files|] == files;
  }

  method MergeOfflineResultFiles(existing: seq<File>, incoming: seq<File>) returns (out: seq<File>)
    ensures out == Merge(existing, incoming)
  {
    if |incoming| == 0 {
      return existing;
    }
    if |existing| == 0 {
      return incoming;
    }
    hide IdMap, PathMap, NameMap, IndexMap, Previous, Fill;
    var byId, byPath, byName, nameCount, byIndex, indexCount := Tabulate(existing);
    out := [];
    for i := 0 to |incoming|
      invariant |out| == i
      invariant forall k | 0 <= k < i :: out[k] == MergeOne(existing, incoming[k])
    {
      var file := incoming[i];
      var previous := LookUp(file, byId, byPath, byName, nameCount, byIndex, indexCount, existing);
      if previous.Some? {
        file := Fill(file, previous.value);
      }
      out := out + [file];
    }
  }

  /** The first loop: the lookup tables of the retained files. */
  method Tabulate(existing: seq<File>)
    returns (byId: map<string, File>, byPath: map<string, File>, byName: map<string, File>, nameCount: map<string, nat>,
             byIndex: map<int, File>, indexCount: map<int, nat>)
    ensures IdMap(byId, existing) && PathMap(byPath, existing)
    ensures NameMap(byName, nameCount, existing) && IndexMap(byIndex, indexCount, existing)
  {
    hide IdMap, PathMap, NameMap, IndexMap, Bump, Last, Count;
    byId, byPath, byName, nameCount, byIndex, indexCount := map[], map[], map[], map[], map[], map[];
    NothingToLookUp();
    for i := 0 to |existing|
      invariant IdMap(byId, existing[..i])
      invariant PathMap(byPath, existing[..i])
      invariant NameMap(byName, nameCount, existing[..i])
      invariant IndexMap(byIndex, indexCount, existing[..i])
    {
      var file := existing[i];
      assert existing[..i + 1] == existing[..i] + [file];
      IdMapStep(byId, existing[..i], file);
      PathMapStep(byPath, existing[..i], file);
      NameMapStep(byName, nameCount, existing[..i], file);
      IndexMapStep(byIndex, indexCount, existing[..i], file);
      if file.remoteId != "" {
        byId := byId[file.remoteId := file];
      }
      if file.path != "" {
        byPath := byPath[file.path := file];
      }
      if file.name != "" {
        byName := byName[file.name := file];
        nameCount := Bump(nameCount, file.name);
      }
      byIndex := byIndex[file.index := file];
      indexCount := Bump(indexCount, file.index);
    }
    assert existing[..|existing|] == existing;
  }

  lemma NothingToLookUp()
    ensures IdMap(map[], []) && PathMap(map[], []) && NameMap(map[], map[], []) && IndexMap(map[], map[], [])
  {
  }

  /** The four lookups, in order. */
  method LookUp(file: File, byId: map<string, File>, byPath: map<string, File>, byName: map<string, File>,
      nameCount: map<string, nat>,
                byIndex: map<int, File>, indexCount: map<int, nat>, ghost existing: seq<File>)
                    returns (previous: Option<File>)
    requires IdMap(byId, existing) && PathMap(byPath, existing)
    requires NameMap(byName, nameCount, existing) && IndexMap(byIndex, indexCount, existing)
    ensures previous == Previous(existing, file)
  {
    hide Last, Count;
    CountedIsFound(existing, ByName(file.name));
    CountedIsFound(existing, ByIndex(file.index));
    previous := None;
    if file.remoteId != "" && file.remoteId in byId {
      previous := Some(byId[file.remoteId]);
    }
    if previous.None? && file.path != "" && file.path in byPath {
      previous := Some(byPath[file.path]);
    }
    if previous.None? && file.name != "" && file.name in nameCount && nameCount[file.name] == 1 {
      previous := Some(byName[file.name]);
    }
    if previous.None? && file.name == "" && file.remoteId == "" && file.path == ""
       && file.index in indexCount && indexCount[file.index] == 1 {
      previous := Some(byIndex[file.index]);
    }
  }

  lemma {:induction false} CountedIsFound(files: seq<File>, key: Key)
    ensures Count(files, key) > 0 <==> Last(files, key).Some?
  {
    if files != [] {
      CountedIsFound(files[..|files| - 1], key);
    }
  }

  // ---------------------------------------------- observations of one set of files

  /** Every file of `ids` is reported once, and nothing else. */
  ghost predicate Reports(files: seq<File>, ids: set<string>) {
    && "" !in ids
    && (forall i | 0 <= i < |files| :: files[i].remoteId in ids)
    && (forall i, j | 0 <= i < j < |files| :: files[i].remoteId != files[j].remoteId)
    && (forall id | id in ids :: Last(files, ById(id)).Some?)
  }

  function Get(files: seq<File>, id: string): File {
    var f := Last(files, ById(id));
    if f.Some? then f.value else File(0, "", 0, id, "")
  }

  lemma {:induction false} LastIsTheOne(files: seq<File>, id: string, i: nat)
    requires i < |files| && files[i].remoteId == id
    requires forall k, l | 0 <= k < l < |files| :: files[k].remoteId != files[l].remoteId
    ensures Last(files, ById(id)) == Some(files[i])
  {
    var n := |files| - 1;
    if i < n {
      assert files[..n][i] == files[i];
      LastIsTheOne(files[..n], id, i);
    }
  }

  lemma {:induction false} LastIsSomewhere(files: seq<File>, id: string) returns (i: nat)
    requires Last(files, ById(id)).Some?
    ensures i < |files| && files[i].remoteId == id && Last(files, ById(id)) == Some(files[i])
  {
    var n := |files| - 1;
    if Has(files[n], ById(id)) {
      i := n;
    } else {
      i := LastIsSomewhere(files[..n], id);
    }
  }

  /** With stable ids the merge is the pointwise fill, and reports the same ids. */
  lemma MergeById(existing: seq<File>, incoming: seq<File>, ids: set<string>)
    requires Reports(existing, ids) && Reports(incoming, ids) && incoming != []
    ensures Reports(Merge(existing, incoming), ids)
    ensures forall id | id in ids :: Get(Merge(existing, incoming), id) == Fill(Get(incoming, id), Get(existing, id))
  {
    var out := Merge(existing, incoming);
    assert incoming[0].remoteId in ids;
    assert existing != [];
    forall i | 0 <= i < |out| ensures out[i] == Fill(incoming[i], Get(existing, incoming[i].remoteId)) {
      assert incoming[i].remoteId in ids;
    }
    forall id | id in ids ensures Last(out, ById(id)).Some? &&
        Get(out, id) == Fill(Get(incoming, id), Get(existing, id)) {
      var i := LastIsSomewhere(incoming, id);
      LastIsTheOne(out, id, i);
    }
  }

  /** The retained list after a run of observations. */
  function Retained(observations: seq<seq<File>>): seq<File> {
    if observations == [] then []
    else Merge(Retained(observations[..|observations| - 1]), observations[|observations| - 1])
  }

  /** The last value that is not the empty one. */
  function LastKnown<T(==)>(values: seq<T>, empty: T): T {
    if values == [] then empty
    else if values[|values| - 1] != empty then values[|values| - 1]
    else LastKnown(values[..|values| - 1], empty)
  }

  function Sizes(observations: seq<seq<File>>, id: string): seq<int> {
    seq(|observations|, i requires 0 <= i < |observations| => Get(observations[i], id).size)
  }

  function Names(observations: seq<seq<File>>, id: string): seq<string> {
    seq(|observations|, i requires 0 <= i < |observations| => Get(observations[i], id).name)
  }

  function StagedPaths(observations: seq<seq<File>>, id: string): seq<string> {
    seq(|observations|, i requires 0 <= i < |observations| => Get(observations[i], id).path)
  }

  /** After any run of observations of the same files, each file's size, name and staged path are the
      latest non-empty ones the provider ever reported for it. */
  lemma {:induction false} RetainedIsLatest(observations: seq<seq<File>>, ids: set<string>, id: string)
    requires |observations| > 0 && id in ids
    requires forall i | 0 <= i < |observations| :: Reports(observations[i], ids)
    ensures Reports(Retained(observations), ids)
    ensures Get(Retained(observations), id).size == LastKnown(Sizes(observations, id), 0)
    ensures Get(Retained(observations), id).name == LastKnown(Names(observations, id), "")
    ensures Get(Retained(observations), id).path == LastKnown(StagedPaths(observations, id), "")
  {
    hide Merge, Reports, Last;
    var n := |observations| - 1;
    var before := observations[..n];
    assert Sizes(observations, id)[..n] == Sizes(before, id);
    assert Names(observations, id)[..n] == Names(before, id);
    assert StagedPaths(observations, id)[..n] == StagedPaths(before, id);
    NotEmpty(observations[n], ids, id);
    if n == 0 {
      MergeIntoNothing(observations[0]);
    } else {
      RetainedIsLatest(before, ids, id);
      MergeById(Retained(before), observations[n], ids);
    }
  }

  lemma NotEmpty(files: seq<File>, ids: set<string>, id: string)
    requires Reports(files, ids) && id in ids
    ensures files != []
  {
  }

  lemma MergeNothing(existing: seq<File>)
    ensures Merge(existing, []) == existing
  {
  }

  lemma MergeIntoNothing(incoming: seq<File>)
    ensures Merge([], incoming) == incoming
  {
  }

  /** A value once known stays known, and a later non-empty one is taken. */
  lemma {:induction false} LastKnownStays<T>(values: seq<T>, more: seq<T>, empty: T)
    ensures LastKnown(values, empty) != empty ==> LastKnown(values + more, empty) != empty
    ensures LastKnown(more, empty) != empty ==> LastKnown(values + more, empty) == LastKnown(more, empty)
    ensures LastKnown(more, empty) == empty ==> LastKnown(values + more, empty) == LastKnown(values, empty)
  {
    if more == [] {
      assert values + more == values;
    } else {
      var all := values + more;
      assert all[..|all| - 1] == values + more[..|more| - 1];
      LastKnownStays(values, more[..|more| - 1], empty);
    }
  }

  /** Replaying the last observation changes nothing, order included. */
  lemma ReplayIsIdle(existing: seq<File>, incoming: seq<File>, ids: set<string>)
    requires Reports(existing, ids) && Reports(incoming, ids) && incoming != []
    ensures Merge(Merge(existing, incoming), incoming) == Merge(existing, incoming)
  {
    var out := Merge(existing, incoming);
    MergeById(existing, incoming, ids);
    assert incoming[0].remoteId in ids;
    assert existing != [];
    forall i | 0 <= i < |incoming| ensures MergeOne(out, incoming[i]) == out[i] {
      assert incoming[i].remoteId in ids;
      assert out[i].remoteId == incoming[i].remoteId by { assert out[i] == MergeOne(existing, incoming[i]); }
      LastIsTheOne(out, incoming[i].remoteId, i);
    }
  }

  /** Why the ids must be the same: a file an observation leaves out is forgotten. */
  lemma OmittedFileIsForgotten()
    ensures var a, b := File(0, "a", 1, "1", "d/a"), File(1, "b", 2, "2", "d/b");
            Get(Merge([a, b], [a]), "2").size == 0 && Merge([a, b], [a]) == [a]
  {
    var a, b := File(0, "a", 1, "1", "d/a"), File(1, "b", 2, "2", "d/b");
    assert Last([a, b], ById("1")) == Some(a) by { assert [a, b][..1] == [a]; }
    assert Merge([a, b], [a]) == [a];
    assert [a][..0] == [];
    assert Last([a], ById("2")) == None;
  }

  // --------------------------------------------------------------- what a merge forgets

  predicate LastAt(files: seq<File>, k: int, key: Key) {
    0 <= k < |files| && Has(files[k], key) && forall l | k < l < |files| :: !Has(files[l], key)
  }

  predicate OnlyAt(files: seq<File>, k: int, key: Key) {
    0 <= k < |files| && Has(files[k], key) && forall l | 0 <= l < |files| && l != k :: !Has(files[l], key)
  }

  lemma {:induction false} LastIsLastAt(files: seq<File>, key: Key) returns (k: int)
    ensures if Last(files, key).Some? then LastAt(files, k, key) && Last(files, key) == Some(files[k])
            else k == -1 && forall l | 0 <= l < |files| :: !Has(files[l], key)
  {
    var n := |files| - 1;
    if files == [] {
      k := -1;
    } else if Has(files[n], key) {
      k := n;
    } else {
      k := LastIsLastAt(files[..n], key);
    }
  }

  lemma {:induction false} CountIsOnly(files: seq<File>, key: Key, k: int)
    requires LastAt(files, k, key)
    ensures Count(files, key) == 1 <==> OnlyAt(files, k, key)
  {
    var n := |files| - 1;
    if k < n {
      CountIsOnly(files[..n], key, k);
      assert forall l | 0 <= l < n :: files[..n][l] == files[l];
    } else {
      CountedIsFound(files[..n], key);
      var l := LastIsLastAt(files[..n], key);
      if Count(files[..n], key) > 0 {
        assert files[..n][l] == files[l];
      } else {
        assert forall m | 0 <= m < n :: files[..n][m] == files[m];
      }
    }
  }

  /** The file `f` of an observation speaks of the retained file at `k`: it has its id, or none and its path, or
      else a name that no other has, or none of the three and an index that no other has. */
  predicate SpeaksOf(existing: seq<File>, f: File, k: int) {
    if f.remoteId != "" then 0 <= k < |existing| && existing[k].remoteId == f.remoteId
    else if f.path != "" && exists l | 0 <= l < |existing| ::
        existing[l].path == f.path then LastAt(existing, k, ByPath(f.path))
    else if f.name != "" then OnlyAt(existing, k, ByName(f.name))
    else f.path == "" && OnlyAt(existing, k, ByIndex(f.index))
  }

  lemma LastIsFirst(files: seq<File>, key: Key, k: int, l: int)
    requires LastAt(files, k, key) && (LastAt(files, l, key) || OnlyAt(files, l, key))
    ensures l == k
  {
  }

  /** A file without an id takes the id of the one retained file it speaks of. */
  lemma TakesId(existing: seq<File>, f: File, id: string)
    requires f.remoteId == "" && id != ""
    ensures MergeOne(existing, f).remoteId == id <==>
            exists k :: 0 <= k < |existing| && SpeaksOf(existing, f, k) && existing[k].remoteId == id
  {
    hide Last, Count;
    var p := LastIsLastAt(existing, ByPath(f.path));
    var n := LastIsLastAt(existing, ByName(f.name));
    var i := LastIsLastAt(existing, ByIndex(f.index));
    CountedIsFound(existing, ByName(f.name));
    CountedIsFound(existing, ByIndex(f.index));
    if n >= 0 {
      CountIsOnly(existing, ByName(f.name), n);
    }
    if i >= 0 {
      CountIsOnly(existing, ByIndex(f.index), i);
    }
    var k := if f.path != "" && p >= 0 then p else if f.name != "" then n else if f.path == "" then i else -1;
    if Previous(existing, f).Some? {
      assert Previous(existing, f) == Some(existing[k]) && SpeaksOf(existing, f, k);
    }
    forall l | 0 <= l < |existing| && SpeaksOf(existing, f, l) ensures l == k &&
        Previous(existing, f) == Some(existing[k]) {
      if f.path != "" && p >= 0 {
        LastIsFirst(existing, ByPath(f.path), p, l);
      } else if f.name != "" {
        LastIsFirst(existing, ByName(f.name), n, l);
      } else {
        LastIsFirst(existing, ByIndex(f.index), i, l);
      }
    }
  }

  predicate HasId(files: seq<File>, id: string) {
    exists i :: 0 <= i < |files| && files[i].remoteId == id
  }

  predicate Mentions(existing: seq<File>, incoming: seq<File>, id: string) {
    exists i, k :: 0 <= i < |incoming| && 0 <= k < |existing| && SpeaksOf(existing, incoming[i], k) &&
        existing[k].remoteId == id
  }

  /** A retained file is kept exactly if the observation is empty or one of its files speaks of it: a file that an
      observation leaves out is forgotten, with all that was known of it. */
  lemma KeptExactly(existing: seq<File>, incoming: seq<File>, id: string)
    requires id != "" && HasId(existing, id)
    ensures HasId(Merge(existing, incoming), id) <==> incoming == [] || Mentions(existing, incoming, id)
  {
    hide SpeaksOf, Previous, Last, Count;
    var out := Merge(existing, incoming);
    if incoming != [] {
      forall i | 0 <= i < |incoming|
        ensures out[i].remoteId == id <==>
                exists k :: 0 <= k < |existing| && SpeaksOf(existing, incoming[i], k) && existing[k].remoteId == id
      {
        assert out[i] == MergeOne(existing, incoming[i]);
        if incoming[i].remoteId == "" {
          TakesId(existing, incoming[i], id);
        } else {
          NamesItself(existing, incoming[i], id);
        }
      }
      if HasId(out, id) {
        var i :| 0 <= i < |out| && out[i].remoteId == id;
        var k :| 0 <= k < |existing| && SpeaksOf(existing, incoming[i], k) && existing[k].remoteId == id;
      }
      if Mentions(existing, incoming, id) {
        var i, k :| 0 <= i < |incoming| && 0 <= k < |existing| && SpeaksOf(existing, incoming[i], k) &&
            existing[k].remoteId == id;
        assert out[i].remoteId == id;
      }
    }
  }

  lemma NamesItself(existing: seq<File>, f: File, id: string)
    requires f.remoteId != "" && HasId(existing, id)
    ensures MergeOne(existing, f).remoteId == f.remoteId
    ensures f.remoteId == id <==>
        exists k :: 0 <= k < |existing| && SpeaksOf(existing, f, k) && existing[k].remoteId == id
  {
    var k :| 0 <= k < |existing| && existing[k].remoteId == id;
    if f.remoteId == id {
      assert SpeaksOf(existing, f, k);
    }
  }
}
