/** `collect_relative_paths` of crates/aios-adapter-process/src/rootfs.rs: a worklist of directories,
    each read in whatever order the system lists it. */
module RootfsWalk {
  import opened Basics
  import opened RootfsTree

  datatype SandboxError = InvalidSandbox

  function Children(t: Tree, d: Path): set<Path> { set p | p in t.nodes && p != [] && Parent(p) == d }

  /** Some order in which each directory is listed, every entry once. */
  type Listing = map<Path, seq<Path>>

  ghost predicate IsListing(t: Tree, listing: Listing) {
    forall d :: IsDirectory(t, d) ==> d in listing && Distinct(listing[d]) && Lists(listing[d], Children(t, d))
  }

  function Directories(t: Tree): set<Path> { {[]} + set p | p in t.nodes && t.nodes[p].Dir? }

  /** What the walk accepts of one entry. */
  predicate Walkable(t: Tree, p: Path)
    requires p in t.nodes
  {
    !t.nodes[p].Other? && |Join(p)| <= MAX_SANDBOX_PATH_BYTES
  }

  /** The walk's state: `read` are the directories already read. */
  ghost predicate Progress(t: Tree, read: set<Path>, stack: seq<Path>, paths: seq<Path>) {
    && Distinct(stack) && Distinct(paths)
    && (forall d :: d in stack ==> d !in read && IsDirectory(t, d) && (d == [] || d in paths))
    && read <= Directories(t)
    && (forall p :: p in paths ==> p in t.nodes && p != [] && Parent(p) in read && Walkable(t, p))
    && (forall p :: p in t.nodes && p != [] && Parent(p) in read ==> p in paths)
    && (forall p :: p in paths && t.nodes[p].Dir? ==> p in read || p in stack)
    && ([] in read || [] in stack)
    && (forall x :: x in read ==> x == [] || x in paths)
  }

  /** The same while directory `d` is being read, with `rest` of it to come. */
  ghost predicate Reading(t: Tree, read: set<Path>, stack: seq<Path>, paths: seq<Path>, d: Path, rest: seq<Path>) {
    && Distinct(stack) && Distinct(paths) && Distinct(rest)
    && d !in read && IsDirectory(t, d) && d !in stack
    && (forall x :: x in stack ==> x !in read && IsDirectory(t, x) && (x == [] || x in paths))
    && read <= Directories(t)
    && (forall p :: p in paths ==> p in t.nodes && p != [] && (Parent(p) in read || Parent(p) == d) && Walkable(t, p))
    && (forall p :: p in rest ==> p in Children(t, d) && p !in paths)
    && (forall p :: p in t.nodes && p != [] && Parent(p) in read ==> p in paths)
    && (forall p :: p in Children(t, d) ==> p in paths || p in rest)
    && (forall p :: p in paths && t.nodes[p].Dir? ==> p in read || p in stack || p == d)
    && ([] in read || [] in stack || d == [])
    && (forall x :: x in read || x == d ==> x == [] || x in paths)
  }

  lemma StartReading(t: Tree, read: set<Path>, stack: seq<Path>, paths: seq<Path>, d: Path, entries: seq<Path>)
    requires Progress(t, read, stack + [d], paths) && Distinct(entries) && Lists(entries, Children(t, d))
    ensures Reading(t, read, stack, paths, d, entries)
  {
    var whole := stack + [d];
    assert whole[|stack|] == d && forall i :: 0 <= i < |stack| ==> whole[i] == stack[i];
    assert forall x :: x in whole <==> x in stack || x == d;
  }

  lemma SnocDistinct(ps: seq<Path>, p: Path)
    requires Distinct(ps) && p !in ps
    ensures Distinct(ps + [p]) && forall x :: x in ps + [p] <==> x in ps || x == p
  {
  }

  lemma TailDistinct(p: Path, rest: seq<Path>)
    requires Distinct([p] + rest)
    ensures Distinct(rest) && p !in rest && forall x :: x in [p] + rest <==> x == p || x in rest
  {
    var whole := [p] + rest;
    assert whole[0] == p && forall i :: 0 <= i < |rest| ==> whole[i + 1] == rest[i];
  }

  lemma TakeEntry(t: Tree, read: set<Path>, stack: seq<Path>, paths: seq<Path>, d: Path, p: Path, rest: seq<Path>)
    requires Reading(t, read, stack, paths, d, [p] + rest) && p in t.nodes && Walkable(t, p)
    ensures Reading(t, read, if t.nodes[p].Dir? then stack + [p] else stack, paths + [p], d, rest)
  {
    hide Distinct, Walkable, Directories;
    TailDistinct(p, rest);
    assert p in Children(t, d) && p !in paths && p != d && p !in stack && p !in read;
    SnocDistinct(paths, p);
    SnocDistinct(stack, p);
    var wider, more := if t.nodes[p].Dir? then stack + [p] else stack, paths + [p];
    forall x | x in wider ensures x !in read && IsDirectory(t, x) && (x == [] || x in more) {
      assert x in stack || x == p;
    }
    forall q | q in more ensures q in t.nodes && q != [] && (Parent(q) in read || Parent(q) == d) && Walkable(t, q) {
      assert q in paths || q == p;
    }
    forall q | q in more && t.nodes[q].Dir? ensures q in read || q in wider || q == d {
      assert q in paths || q == p;
    }
    forall q | q in Children(t, d) ensures q in more || q in rest {
      assert q in paths || q in [p] + rest;
    }
  }

  lemma DoneReading(t: Tree, read: set<Path>, stack: seq<Path>, paths: seq<Path>, d: Path)
    requires Reading(t, read, stack, paths, d, [])
    ensures Progress(t, read + {d}, stack, paths)
  {
    forall p | p in t.nodes && p != [] && Parent(p) == d ensures p in paths {
      assert p in Children(t, d);
    }
  }

  /** When nothing is left to read, every entry of the tree has been listed. */
  lemma {:induction false} AllListed(t: Tree, read: set<Path>, paths: seq<Path>, p: Path)
    requires WellFormed(t) && Progress(t, read, [], paths) && p in t.nodes
    ensures p in paths
    decreases |p|
  {
    if Parent(p) != [] {
      AllListed(t, read, paths, Parent(p));
    }
  }

  lemma {:induction false} DistinctCount(ps: seq<Path>, s: set<Path>)
    requires Distinct(ps) && forall p :: p in ps ==> p in s
    ensures |ps| <= |s|
    decreases ps
  {
    if ps != [] {
      var k := |ps| - 1;
      assert ps[k] in ps;
      DistinctCount(ps[..k], s - {ps[k]});
    }
  }

  lemma {:induction false} ListCount(ps: seq<Path>, s: set<Path>)
    requires Distinct(ps) && Lists(ps, s)
    ensures |ps| == |s|
    decreases ps
  {
    if ps == [] {
      assert s == {};
    } else {
      var k := |ps| - 1;
      assert ps[k] in ps;
      assert ps == ps[..k] + [ps[k]];
      ListCount(ps[..k], s - {ps[k]});
    }
  }

  predicate WithinLimits(t: Tree) {
    |t.nodes.Keys| <= MAX_ENTRIES && forall p :: p in t.nodes ==> Walkable(t, p)
  }

  /** The inner loop: one directory's entries. */
  method ReadDirectory(t: Tree, ghost read: set<Path>, before: seq<Path>, listed: seq<Path>, d: Path,
                       entries: seq<Path>)
    returns (r: Option<(seq<Path>, seq<Path>)>)
    requires Reading(t, read, before, listed, d, entries) && |listed| <= MAX_ENTRIES
    ensures r.None? ==> !WithinLimits(t)
    ensures r.Some? ==> Reading(t, read, r.value.0, r.value.1, d, []) && |r.value.1| <= MAX_ENTRIES
  {
    var stack, paths := before, listed;
    assert entries[0..] == entries;
    for i := 0 to |entries|
      invariant Reading(t, read, stack, paths, d, entries[i..]) && |paths| <= MAX_ENTRIES
    {
      var p := entries[i];
      assert entries[i..] == [p] + entries[i + 1..];
      EntryIsChild(t, read, stack, paths, d, p, entries[i + 1..]);
      hide Reading;
      if |Join(p)| > MAX_SANDBOX_PATH_BYTES {
        return None;
      }
      if t.nodes[p].Other? {
        return None;
      }
      TakeEntry(t, read, stack, paths, d, p, entries[i + 1..]);
      paths := paths + [p];
      if |paths| > MAX_ENTRIES {
        TooMany(t, read, if t.nodes[p].Dir? then stack + [p] else stack, paths, d, entries[i + 1..]);
        return None;
      }
      if t.nodes[p].Dir? {
        stack := stack + [p];
      }
    }
    assert entries[|entries|..] == [];
    return Some((stack, paths));
  }

  lemma EntryIsChild(t: Tree, read: set<Path>, stack: seq<Path>, paths: seq<Path>, d: Path, p: Path, rest: seq<Path>)
    requires Reading(t, read, stack, paths, d, [p] + rest)
    ensures p in t.nodes
  {
    assert p in [p] + rest;
  }

  lemma TooMany(t: Tree, read: set<Path>, stack: seq<Path>, paths: seq<Path>, d: Path, rest: seq<Path>)
    requires Reading(t, read, stack, paths, d, rest)
    ensures |paths| <= |t.nodes.Keys|
  {
    DistinctCount(paths, t.nodes.Keys);
  }

  lemma Finished(t: Tree, read: set<Path>, paths: seq<Path>)
    requires WellFormed(t) && Progress(t, read, [], paths)
    requires |paths| <= MAX_ENTRIES
    ensures Distinct(paths) && Lists(paths, t.nodes.Keys) && WithinLimits(t)
  {
    forall p | p in t.nodes ensures p in paths {
      AllListed(t, read, paths, p);
    }
    ListCount(paths, t.nodes.Keys);
  }

  /** The walk accepts exactly the trees within its limits that hold only directories and regular files,
      terminates, and then has listed every entry exactly once, in whatever order directories list
      theirs. */
  method CollectRelativePaths(t: Tree, listing: Listing) returns (r: Result<seq<Path>, SandboxError>)
    requires WellFormed(t) && IsListing(t, listing)
    ensures r.Ok? <==> WithinLimits(t)
    ensures r.Ok? ==> Distinct(r.value) && Lists(r.value, t.nodes.Keys)
  {
    hide *;
    var stack: seq<Path> := [[]];
    var paths: seq<Path> := [];
    ghost var read: set<Path> := {};
    ghost var all := Directories(t);
    Beginning(t);
    while stack != []
      invariant Progress(t, read, stack, paths) && |paths| <= MAX_ENTRIES
      decreases |all - read|
    {
      var d, front := stack[|stack| - 1], stack[..|stack| - 1];
      assert stack == front + [d];
      var next := ReadNext(t, listing, read, front, paths, d);
      if next.None? {
        return Err(InvalidSandbox);
      }
      stack, paths := next.value.0, next.value.1;
      Fewer(all, read, d);
      read := read + {d};
    }
    Finished(t, read, paths);
    return Ok(paths);
  }

  /** One iteration of the outer loop: directory `d` has just been popped. */
  method ReadNext(t: Tree, listing: Listing, ghost read: set<Path>, front: seq<Path>, paths: seq<Path>, d: Path)
    returns (r: Option<(seq<Path>, seq<Path>)>)
    requires Progress(t, read, front + [d], paths) && IsListing(t, listing) && |paths| <= MAX_ENTRIES
    ensures d in Directories(t) - read
    ensures r.None? ==> !WithinLimits(t)
    ensures r.Some? ==> Progress(t, read + {d}, r.value.0, r.value.1) && |r.value.1| <= MAX_ENTRIES
  {
    hide *;
    Popped(t, listing, read, front, paths, d);
    StartReading(t, read, front, paths, d, listing[d]);
    r := ReadDirectory(t, read, front, paths, d, listing[d]);
    if r.Some? {
      DoneReading(t, read, r.value.0, r.value.1, d);
    }
  }

  lemma Fewer(all: set<Path>, read: set<Path>, d: Path)
    requires d in all - read
    ensures |all - (read + {d})| < |all - read|
  {
    assert all - (read + {d}) == (all - read) - {d};
  }

  lemma Beginning(t: Tree)
    ensures Progress(t, {}, [[]], [])
  {
  }

  lemma Popped(t: Tree, listing: Listing, read: set<Path>, stack: seq<Path>, paths: seq<Path>, d: Path)
    requires Progress(t, read, stack + [d], paths) && IsListing(t, listing)
    ensures d in Directories(t) - read && d in listing && Distinct(listing[d]) && Lists(listing[d], Children(t, d))
  {
    assert d in stack + [d];
  }
}
