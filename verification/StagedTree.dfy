/** What a listing of the staged files says: whether it shows every result file,
which folder the result files share, and whether a folder holds nothing else. */
module StagedTree {
  import opened Wrappers
  import opened ResultFiles
  import Paths

  datatype Node = Leaf(name: string, id: string, size: int) | Folder(name: string, children: seq<Node>)

  // ----------------------------------------------------------------------- ownership

  function LeavesUnder(nodes: seq<Node>): set<string>
    decreases nodes
  {
    if nodes == [] then {}
    else
      var first := match nodes[0] case Leaf(_, id, _) => {id} case Folder(_, children) => LeavesUnder(children);
      first + LeavesUnder(nodes[1..])
  }

  function Nesting(nodes: seq<Node>): nat
    decreases nodes
  {
    if nodes == [] then 0
    else
      var here := match nodes[0] case Leaf(_, _, _) => 0 case Folder(_, children) => 1 + Nesting(children);
      var rest := Nesting(nodes[1..]);
      if here > rest then here else rest
  }

  predicate OwnedEntries(nodes: seq<Node>, removed: set<string>, depth: nat)
    decreases nodes
  {
    nodes == [] ||
    (&& (match nodes[0]
         case Leaf(_, id, _) => id in removed
         case Folder(_, children) => depth + 1 <= Paths.MAX_DEPTH && OwnedEntries(children, removed, depth + 1))
     && OwnedEntries(nodes[1..], removed, depth))
  }

  /** Every file below a folder is one of `removed`, as far down as it is walked. */
  predicate Owned(nodes: seq<Node>, removed: set<string>) {
    LeavesUnder(nodes) <= removed && Nesting(nodes) <= Paths.MAX_DEPTH
  }

  lemma {:induction false} OwnedExactly(nodes: seq<Node>, removed: set<string>, depth: nat)
    requires depth <= Paths.MAX_DEPTH
    ensures OwnedEntries(nodes, removed, depth)
            <==> LeavesUnder(nodes) <= removed && depth + Nesting(nodes) <= Paths.MAX_DEPTH
    decreases nodes
  {
    if nodes != [] {
      OwnedExactly(nodes[1..], removed, depth);
      match nodes[0]
      case Leaf(_, _, _) =>
      case Folder(_, children) =>
        if depth + 1 <= Paths.MAX_DEPTH {
          OwnedExactly(children, removed, depth + 1);
        }
    }
  }

  /** stagedTreeOwned, over a listing that succeeded. */
  method StagedTreeOwned(entries: seq<Node>, removed: set<string>, depth: nat) returns (owned: bool)
    ensures owned <==> LeavesUnder(entries) <= removed && depth + Nesting(entries) <= Paths.MAX_DEPTH
    decreases entries
  {
    if depth > Paths.MAX_DEPTH {
      return false;
    }
    OwnedExactly(entries, removed, depth);
    hide LeavesUnder, Nesting;
    var i := 0;
    while i < |entries|
      invariant i <= |entries|
      invariant OwnedEntries(entries, removed, depth) <==> OwnedEntries(entries[i..], removed, depth)
    {
      assert entries[i..][1..] == entries[i + 1..];
      match entries[i] {
        case Folder(_, children) =>
          var nested := StagedTreeOwned(children, removed, depth + 1);
          if depth + 1 <= Paths.MAX_DEPTH {
            OwnedExactly(children, removed, depth + 1);
          }
          if !nested {
            return false;
          }
        case Leaf(_, id, _) =>
          if id !in removed {
            return false;
          }
      }
      i := i + 1;
    }
    return true;
  }

  // ------------------------------------------------------------------- result files

  function StagedPath(f: File): string {
    Paths.Slashed(if f.path != "" then f.path else f.name)
  }

  /** The path of a result file relative to the parse destination. */
  function Rel(f: File): string {
    var p := StagedPath(f);
    if p != "" && p[0] == '/' then p[1..] else p
  }

  predicate Under(rel: string, folder: string) {
    |rel| > |folder| && rel[..|folder|] == folder && rel[|folder|] == '/'
  }

  /** listStagedTree, read at one path: the size listed there.  A later entry counts before an earlier one, and
      nothing is listed below 32 folders. */
  function Find(nodes: seq<Node>, rel: string, depth: nat): Option<int>
    decreases nodes
  {
    if nodes == [] || depth > Paths.MAX_DEPTH then None
    else
      var last := nodes[|nodes| - 1];
      var hit :=
        match last
        case Leaf(name, _, size) => if name == rel then Some(size) else None
        case Folder(name, children) => if Under(rel, name) then Find(children, rel[|name| + 1..], depth + 1) else None;
      if hit.Some? then hit else Find(nodes[..|nodes| - 1], rel, depth)
  }

  /** The file is listed, and not with another size. */
  predicate Shows(nodes: seq<Node>, f: File) {
    Rel(f) != "" && Find(nodes, Rel(f), 0).Some? &&
    var size := Find(nodes, Rel(f), 0).value;
    f.size <= 0 || size <= 0 || size == f.size
  }

  predicate ShowsAll(listing: Option<seq<Node>>, files: seq<File>) {
    listing.Some? && files != [] && forall i | 0 <= i < |files| :: Shows(listing.value, files[i])
  }

  /** destinationHasResults; a listing that failed shows nothing. */
  method DestinationHasResults(listing: Option<seq<Node>>, files: seq<File>) returns (found: bool)
    ensures found <==> ShowsAll(listing, files)
  {
    if |files| == 0 || listing.None? {
      return false;
    }
    for i := 0 to |files|
      invariant forall k | 0 <= k < i :: Shows(listing.value, files[k])
    {
      var rel := Rel(files[i]);
      if rel == "" {
        return false;
      }
      var size := Find(listing.value, rel, 0);
      if size.None? {
        return false;
      }
      if files[i].size > 0 && size.value > 0 && size.value != files[i].size {
        return false;
      }
    }
    return true;
  }

  /** A leaf of that path and size is in the tree. */
  ghost predicate IsAt(nodes: seq<Node>, rel: string, size: int)
    decreases nodes
  {
    exists i | 0 <= i < |nodes| ::
      match nodes[i]
      case Leaf(name, _, s) => name == rel && s == size
      case Folder(name, children) => Under(rel, name) && IsAt(children, rel[|name| + 1..], size)
  }

  /** What is found is really there. */
  lemma {:induction false} FoundIsThere(nodes: seq<Node>, rel: string, depth: nat)
    requires Find(nodes, rel, depth).Some?
    ensures IsAt(nodes, rel, Find(nodes, rel, depth).value)
    decreases nodes
  {
    var n := |nodes| - 1;
    var size := Find(nodes, rel, depth).value;
    match nodes[n] {
      case Leaf(name, _, s) =>
        if name != rel {
          FoundIsThere(nodes[..n], rel, depth);
          AlsoThere(nodes, n, rel, size);
        }
      case Folder(name, children) =>
        if Under(rel, name) && Find(children, rel[|name| + 1..], depth + 1).Some? {
          FoundIsThere(children, rel[|name| + 1..], depth + 1);
        } else {
          FoundIsThere(nodes[..n], rel, depth);
          AlsoThere(nodes, n, rel, size);
        }
    }
  }

  lemma AlsoThere(nodes: seq<Node>, n: nat, rel: string, size: int)
    requires n <= |nodes| && IsAt(nodes[..n], rel, size)
    ensures IsAt(nodes, rel, size)
  {
    var i :| 0 <= i < n &&
      match nodes[..n][i]
      case Leaf(name, _, s) => name == rel && s == size
      case Folder(name, children) => Under(rel, name) && IsAt(children, rel[|name| + 1..], size);
    assert nodes[i] == nodes[..n][i];
  }

  // ------------------------------------------------------------------- the shared folder

  function TrimLeft(s: string): string {
    if s != "" && s[0] == '/' then TrimLeft(s[1..]) else s
  }

  function TrimRight(s: string): string {
    if s != "" && s[|s| - 1] == '/' then TrimRight(s[..|s| - 1]) else s
  }

  function UpToSlash(s: string): string {
    if s == "" || s[0] == '/' then "" else [s[0]] + UpToSlash(s[1..])
  }

  function Trimmed(f: File): string {
    TrimRight(TrimLeft(StagedPath(f)))
  }

  /** The top folder of a result file, or "" if it lies in the parse destination itself. */
  function TopFolder(f: File): string {
    var first := UpToSlash(Trimmed(f));
    if |first| < |Trimmed(f)| then first else ""
  }

  /** stagedRootFolder: the top folder that all result files share. */
  function RootFolder(files: seq<File>): string {
    if files == [] then ""
    else
      var top := TopFolder(files[|files| - 1]);
      if |files| == 1 then top
      else if RootFolder(files[..|files| - 1]) == top then top else ""
  }

  method StagedRootFolder(files: seq<File>) returns (root: string)
    ensures root == RootFolder(files)
  {
    root := "";
    for i := 0 to |files|
      invariant root == RootFolder(files[..i]) && (i > 0 ==> root != "")
    {
      var first := TopFolder(files[i]);
      assert files[..i + 1][..i] == files[..i];
      if first == "" || (root != "" && root != first) {
        NoRoot(files, i + 1);
        return "";
      }
      root := first;
    }
    assert files[..|files|] == files;
  }

  lemma {:induction false} NoRoot(files: seq<File>, k: nat)
    requires 0 < k <= |files| && RootFolder(files[..k]) == ""
    ensures RootFolder(files) == ""
  {
    if k == |files| {
      assert files[..k] == files;
    } else {
      assert files[..|files| - 1][..k] == files[..k];
      NoRoot(files[..|files| - 1], k);
    }
  }

  lemma {:induction false} UpToSlashStops(s: string)
    ensures |UpToSlash(s)| <= |s| && UpToSlash(s) == s[..|UpToSlash(s)|]
    ensures |UpToSlash(s)| < |s| ==> s[|UpToSlash(s)|] == '/'
  {
    if s != "" && s[0] != '/' {
      UpToSlashStops(s[1..]);
    }
  }

  /** A shared folder is a proper folder below the parse destination, and every result file lies in it; so what is
      listed for removal is never the parse destination. */
  lemma {:induction false} AllInRootFolder(files: seq<File>, i: nat)
    requires RootFolder(files) != "" && i < |files|
    ensures Under(Trimmed(files[i]), RootFolder(files)) && '/' !in RootFolder(files)
  {
    var n := |files| - 1;
    if i == n {
      UpToSlashStops(Trimmed(files[n]));
      NoSlash(Trimmed(files[n]));
    } else {
      AllInRootFolder(files[..n], i);
    }
  }

  lemma {:induction false} NoSlash(s: string)
    ensures '/' !in UpToSlash(s)
  {
    if s != "" && s[0] != '/' {
      NoSlash(s[1..]);
    }
  }
}
