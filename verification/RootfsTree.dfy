/** Trees as the root filesystem measurement sees them, their relative paths as bytes and the order in
    which those are sorted: crates/aios-adapter-process/src/rootfs.rs. */
module RootfsTree {
  import opened Basics
  import opened Words

  const SLASH: u8 := 47
  const MAX_SANDBOX_PATH_BYTES: nat := 4096
  const MAX_ENTRIES: nat := 4096

  type Bytes = seq<u8>
  /** One directory entry's name. */
  type Name = Bytes
  /** A path relative to the root; the root itself is the empty list. */
  type Path = seq<Name>

  /** Link counts and modes are as `symlink_metadata` reports them; `Other` is anything that is neither
      a directory nor a regular file. */
  datatype Node = Dir(mode: u32) | File(mode: u32, links: nat, content: Bytes) | Other

  datatype Tree = Tree(rootMode: u32, nodes: map<Path, Node>)

  predicate IsName(n: Name) { n != [] && SLASH !in n }

  function Parent(p: Path): Path
    requires p != []
  {
    p[..|p| - 1]
  }

  predicate IsDirectory(t: Tree, p: Path) { p == [] || (p in t.nodes && t.nodes[p].Dir?) }

  /** Every entry has a proper name and lies in a directory of the tree. */
  ghost predicate WellFormed(t: Tree) {
    forall p :: p in t.nodes ==> p != [] && IsDirectory(t, Parent(p)) && forall i :: 0 <= i < |p| ==> IsName(p[i])
  }

  /******* Paths as bytes *******/

  /** The components joined by slashes. */
  function Join(p: Path): Bytes {
    if p == [] then []
    else if |p| == 1 then p[0]
    else Join(Parent(p)) + [SLASH] + p[|p| - 1]
  }

  predicate Names(p: Path) { forall i :: 0 <= i < |p| ==> IsName(p[i]) }

  /** A slash-free suffix of a sequence is determined by the last slash. */
  lemma LastSlash(a: Bytes, x: Name, b: Bytes, y: Name)
    requires SLASH !in x && SLASH !in y && a + [SLASH] + x == b + [SLASH] + y
    ensures a == b && x == y
  {
    var s := a + [SLASH] + x;
    assert s[|a|] == SLASH && s[|b|] == SLASH;
    assert forall i :: |a| < i < |s| ==> s[i] in x;
    assert forall i :: |b| < i < |s| ==> s[i] in y;
    assert s[..|a|] == a && s[..|b|] == b && s[|a| + 1..] == x && s[|b| + 1..] == y;
  }

  /** Joining is injective. */
  lemma {:induction false} JoinIsInjective(p: Path, q: Path)
    requires Names(p) && Names(q) && Join(p) == Join(q)
    ensures p == q
    decreases |p|
  {
    JoinEnds(p);
    JoinEnds(q);
    if |p| > 1 && |q| > 1 {
      LastSlash(Join(Parent(p)), p[|p| - 1], Join(Parent(q)), q[|q| - 1]);
      JoinIsInjective(Parent(p), Parent(q));
      assert p == Parent(p) + [p[|p| - 1]] && q == Parent(q) + [q[|q| - 1]];
    }
  }

  lemma JoinEnds(p: Path)
    requires Names(p)
    ensures Join(p) == [] <==> p == []
    ensures |p| == 1 ==> SLASH !in Join(p)
    ensures |p| > 1 ==> SLASH in Join(p)
  {
    if |p| > 1 {
      var front := Join(Parent(p));
      assert (front + [SLASH] + p[|p| - 1])[|front|] == SLASH;
    }
  }

  /******* Byte order *******/

  /** Lexicographic order on bytes, a prefix first. */
  predicate Before(a: Bytes, b: Bytes) {
    b != [] && (a == [] || a[0] < b[0] || (a[0] == b[0] && Before(a[1..], b[1..])))
  }

  lemma {:induction false} BeforeIsStrict(a: Bytes)
    ensures !Before(a, a)
  {
    if a != [] {
      BeforeIsStrict(a[1..]);
    }
  }

  lemma {:induction false} BeforeIsTransitive(a: Bytes, b: Bytes, c: Bytes)
    requires Before(a, b) && Before(b, c)
    ensures Before(a, c)
  {
    if a != [] && a[0] == b[0] && b[0] == c[0] {
      BeforeIsTransitive(a[1..], b[1..], c[1..]);
    }
  }

  lemma {:induction false} BeforeIsTotal(a: Bytes, b: Bytes)
    requires a != b
    ensures Before(a, b) || Before(b, a)
  {
    if a != [] && b != [] && a[0] == b[0] {
      assert a == [a[0]] + a[1..] && b == [b[0]] + b[1..];
      BeforeIsTotal(a[1..], b[1..]);
    }
  }

  /******* Sorted enumerations *******/

  ghost predicate Sorted(ps: seq<Path>) {
    forall i, j :: 0 <= i < j < |ps| ==> Before(Join(ps[i]), Join(ps[j]))
  }

  ghost predicate Lists(ps: seq<Path>, s: set<Path>) { forall p :: p in ps <==> p in s }

  ghost predicate AllNames(ps: seq<Path>) { forall p :: p in ps ==> Names(p) }

  /** Insertion into a sorted list. */
  function Insert(p: Path, ps: seq<Path>): (r: seq<Path>)
    ensures |r| == |ps| + 1 && multiset(r) == multiset(ps) + multiset{p}
  {
    if ps == [] then [p]
    else if Before(Join(p), Join(ps[0])) then [p] + ps
    else
      assert ps == [ps[0]] + ps[1..];
      [ps[0]] + Insert(p, ps[1..])
  }

  /** `sort_by` on encoded bytes. */
  function Sort(ps: seq<Path>): (r: seq<Path>)
    ensures |r| == |ps| && multiset(r) == multiset(ps)
  {
    if ps == [] then []
    else
      assert ps == [ps[0]] + ps[1..];
      Insert(ps[0], Sort(ps[1..]))
  }

  lemma ConsSorts(p: Path, ps: seq<Path>)
    requires Sorted(ps) && forall j :: 0 <= j < |ps| ==> Before(Join(p), Join(ps[j]))
    ensures Sorted([p] + ps)
  {
    var r := [p] + ps;
    forall i, j | 0 <= i < j < |r| ensures Before(Join(r[i]), Join(r[j])) {
      assert r[j] == ps[j - 1];
    }
  }

  lemma InsertAdds(p: Path, ps: seq<Path>, q: Path)
    ensures q in Insert(p, ps) <==> q == p || q in ps
  {
    assert q in Insert(p, ps) <==> q in multiset(Insert(p, ps));
    assert q in ps <==> q in multiset(ps);
  }

  lemma {:induction false} InsertSorts(p: Path, ps: seq<Path>)
    requires Sorted(ps) && Names(p) && AllNames(ps) && p !in ps
    ensures Sorted(Insert(p, ps))
    decreases ps
  {
    hide Join, Before;
    if ps == [] {
      ConsSorts(p, ps);
    } else if Before(Join(p), Join(ps[0])) {
      forall j | 0 < j < |ps| ensures Before(Join(p), Join(ps[j])) {
        BeforeIsTransitive(Join(p), Join(ps[0]), Join(ps[j]));
      }
      ConsSorts(p, ps);
    } else {
      JoinsDiffer(p, ps[0]);
      BeforeIsTotal(Join(p), Join(ps[0]));
      InsertSorts(p, ps[1..]);
      var rest := Insert(p, ps[1..]);
      forall j | 0 <= j < |rest| ensures Before(Join(ps[0]), Join(rest[j])) {
        InsertAdds(p, ps[1..], rest[j]);
      }
      ConsSorts(ps[0], rest);
    }
  }

  lemma JoinsDiffer(p: Path, q: Path)
    requires Names(p) && Names(q) && p != q
    ensures Join(p) != Join(q)
  {
    if Join(p) == Join(q) {
      JoinIsInjective(p, q);
    }
  }

  lemma {:induction false} SortSorts(ps: seq<Path>)
    requires Distinct(ps) && AllNames(ps)
    ensures Sorted(Sort(ps)) && forall q :: q in Sort(ps) <==> q in ps
    decreases ps
  {
    if ps != [] {
      SortSorts(ps[1..]);
      var rest := Sort(ps[1..]);
      assert ps[0] !in ps[1..];
      InsertSorts(ps[0], rest);
      forall q ensures q in Sort(ps) <==> q in ps {
        InsertAdds(ps[0], rest, q);
      }
    }
  }

  /** Sorted lists of the same paths are equal: the order of enumeration does not matter. */
  lemma {:induction false} SortedIsUnique(ps: seq<Path>, qs: seq<Path>)
    requires Sorted(ps) && Sorted(qs)
    requires (forall i :: 0 <= i < |ps| ==> ps[i] in qs) && (forall i :: 0 <= i < |qs| ==> qs[i] in ps)
    ensures ps == qs
    decreases ps
  {
    assert (ps != [] ==> ps[0] in qs) && (qs != [] ==> qs[0] in ps);
    if ps != [] && qs != [] {
      FirstIsLeast(ps, qs[0]);
      FirstIsLeast(qs, ps[0]);
      assert ps[0] == qs[0];
      forall p | p in ps ensures p in qs && (p in ps[1..] <==> p in qs[1..]) {
        RestOf(ps, p);
        RestOf(qs, p);
      }
      forall p | p in qs ensures p in ps && (p in ps[1..] <==> p in qs[1..]) {
        RestOf(ps, p);
        RestOf(qs, p);
      }
      SortedIsUnique(ps[1..], qs[1..]);
      assert ps == [ps[0]] + ps[1..] && qs == [qs[0]] + qs[1..];
    }
  }

  lemma FirstIsLeast(ps: seq<Path>, p: Path)
    requires Sorted(ps) && p in ps
    ensures p == ps[0] || (Before(Join(ps[0]), Join(p)) && !Before(Join(p), Join(ps[0])))
  {
    var i :| 0 <= i < |ps| && ps[i] == p;
    if i > 0 && Before(Join(p), Join(ps[0])) {
      BeforeIsTransitive(Join(p), Join(ps[0]), Join(p));
      BeforeIsStrict(Join(p));
    }
  }

  lemma RestOf(ps: seq<Path>, p: Path)
    requires Sorted(ps) && ps != []
    ensures p in ps[1..] <==> p in ps && p != ps[0]
  {
    BeforeIsStrict(Join(ps[0]));
    forall i | 0 < i < |ps| ensures ps[i] != ps[0] {
      assert Before(Join(ps[0]), Join(ps[i]));
    }
    if p in ps && p != ps[0] {
      var i :| 0 <= i < |ps| && ps[i] == p;
      assert ps[1..][i - 1] == p;
    }
  }
}
