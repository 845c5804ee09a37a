/** `measure_tree` of crates/aios-adapter-process/src/rootfs.rs up to the hash function: the byte stream
    that is hashed, and what it says about the tree. */
module RootfsStream {
  import opened Basics
  import opened Words
  import opened RootfsTree
  import opened RootfsWalk

  const MAX_FILE_BYTES: nat := 256 * 1024 * 1024
  const MAX_TOTAL_BYTES: nat := 512 * 1024 * 1024
  const BUFFER_BYTES: nat := 64 * 1024
  const TAG_ROOT: u8 := 82
  const TAG_DIR: u8 := 68
  const TAG_FILE: u8 := 70
  /** "AIOS_ROOTFS_TREE_SHA256_V1" and a zero byte. */
  const DOMAIN: Bytes :=
    [65, 73, 79, 83, 95, 82, 79, 79, 84, 70, 83, 95, 84, 82, 69, 69, 95, 83, 72, 65, 50, 53, 54, 95, 86, 49, 0]

  /** The permission bits, `mode & 0o777`. */
  function Permissions(mode: u32): u32 { mode % 0x200 }

  /** No write bit: `mode & 0o222 == 0`. */
  predicate ReadOnly(mode: u32) { mode / 2 % 2 == 0 && mode / 16 % 2 == 0 && mode / 128 % 2 == 0 }

  /** In octal digits, of which `h` stands for all bits above: the permissions are the last three, and a mode
      is read-only if and only if none of them has its write bit. */
  lemma {:induction false} ModesAreOctal(h: nat, u: nat, g: nat, o: nat)
    requires u < 8 && g < 8 && o < 8 && h * 0x200 + u * 0x40 + g * 8 + o < 0x1_0000_0000
    ensures var mode := h * 0x200 + u * 0x40 + g * 8 + o;
            && Permissions(mode) == u * 0x40 + g * 8 + o
            && (ReadOnly(mode) <==> u in {0, 1, 4, 5} && g in {0, 1, 4, 5} && o in {0, 1, 4, 5})
  {
    var mode := h * 0x200 + u * 0x40 + g * 8 + o;
    OtherBit(h * 0x40 + u * 8 + g, o);
    GroupBit(h * 8 + u, g, o);
    OwnerBit(h, u, g * 8 + o);
  }

  lemma OtherBit(x: nat, o: nat)
    requires o < 8
    ensures (x * 8 + o) / 2 % 2 == 0 <==> o in {0, 1, 4, 5}
  {
    assert (x * 8 + o) / 2 == 2 * (2 * x) + o / 2;
  }

  lemma GroupBit(x: nat, g: nat, o: nat)
    requires g < 8 && o < 8
    ensures (x * 0x40 + g * 8 + o) / 16 % 2 == 0 <==> g in {0, 1, 4, 5}
  {
    assert (x * 0x40 + g * 8 + o) / 16 == 2 * (2 * x) + g / 2;
  }

  lemma OwnerBit(h: nat, u: nat, r: nat)
    requires u < 8 && r < 0x40
    ensures (h * 0x200 + u * 0x40 + r) / 128 % 2 == 0 <==> u in {0, 1, 4, 5}
  {
    assert (h * 0x200 + u * 0x40 + r) / 128 == 2 * (2 * h) + u / 2;
  }

  /******* What is accepted *******/

  /** The conditions on one entry of an accepted tree. */
  predicate Sealed(n: Node) {
    match n
    case Dir(mode) => ReadOnly(mode)
    case File(mode, links, content) => links == 1 && ReadOnly(mode) && |content| <= MAX_FILE_BYTES
    case Other => false
  }

  function SizeOf(n: Node): nat { if n.File? then |n.content| else 0 }

  function Total(t: Tree, ps: seq<Path>): nat
    requires forall p :: p in ps ==> p in t.nodes
  {
    if ps == [] then 0 else Total(t, ps[..|ps| - 1]) + SizeOf(t.nodes[ps[|ps| - 1]])
  }

  lemma {:induction false} TotalGrows(t: Tree, ps: seq<Path>, k: nat)
    requires k <= |ps| && forall p :: p in ps ==> p in t.nodes
    ensures Total(t, ps[..k]) <= Total(t, ps)
    decreases |ps| - k
  {
    if k == |ps| {
      assert ps[..k] == ps;
    } else {
      assert ps[..k + 1][..k] == ps[..k];
      TotalGrows(t, ps, k + 1);
    }
  }

  /******* The canonical order *******/

  lemma {:induction false} OrderExists(s: set<Path>)
    requires forall p :: p in s ==> Names(p)
    ensures exists ps :: Sorted(ps) && Lists(ps, s)
    decreases s
  {
    if s == {} {
      assert Sorted([]) && Lists([], s);
    } else {
      var p :| p in s;
      OrderExists(s - {p});
      var ps :| Sorted(ps) && Lists(ps, s - {p});
      InsertSorts(p, ps);
      forall q ensures q in Insert(p, ps) <==> q in s {
        InsertAdds(p, ps, q);
      }
      assert Sorted(Insert(p, ps)) && Lists(Insert(p, ps), s);
    }
  }

  /** The entries of a tree in byte order. */
  ghost function Order(t: Tree): (ps: seq<Path>)
    requires WellFormed(t)
    ensures Sorted(ps) && Lists(ps, t.nodes.Keys)
  {
    OrderExists(t.nodes.Keys);
    var ps :| Sorted(ps) && Lists(ps, t.nodes.Keys);
    ps
  }

  /** Whatever order the walk listed the entries in, sorting gives this order. */
  lemma {:induction false} OrderIsCanonical(t: Tree, paths: seq<Path>)
    requires WellFormed(t) && Distinct(paths) && Lists(paths, t.nodes.Keys)
    ensures Sort(paths) == Order(t)
  {
    SortSorts(paths);
    SortedIsUnique(Sort(paths), Order(t));
  }

  ghost predicate Acceptable(t: Tree)
    requires WellFormed(t)
  {
    && WithinLimits(t) && ReadOnly(t.rootMode)
    && (forall p :: p in t.nodes ==> Sealed(t.nodes[p]))
    && Total(t, Order(t)) <= MAX_TOTAL_BYTES
  }

  /******* The stream *******/

  type u64 = x: nat | x < 0x1_0000_0000_0000_0000

  function Bytes8(x: u64): (b: Bytes)
    ensures |b| == 8 && Word8(b) == x
  {
    var b := Bytes4(x / 0x1_0000_0000, Big) + Bytes4(x % 0x1_0000_0000, Big);
    assert b[..4] == Bytes4(x / 0x1_0000_0000, Big) && b[4..] == Bytes4(x % 0x1_0000_0000, Big);
    b
  }

  function Word8(b: Bytes): nat
    requires |b| == 8
  {
    var high: nat, low: nat := Word4(b[..4], Big), Word4(b[4..], Big);
    0x1_0000_0000 * high + low
  }

  /** What the stream records of an entry: permission bits, kind and content. */
  datatype Look = DirLook(mode: u32) | FileLook(mode: u32, content: Bytes)

  function LookOf(n: Node): Look
    requires Sealed(n)
  {
    if n.Dir? then DirLook(Permissions(n.mode)) else FileLook(Permissions(n.mode), n.content)
  }

  function KindBytes(l: Look): Bytes
    requires l.FileLook? ==> |l.content| <= MAX_FILE_BYTES
  {
    if l.DirLook? then [TAG_DIR] else [TAG_FILE] + Bytes8(|l.content|) + l.content
  }

  predicate Fits(path: Bytes, l: Look) {
    |path| <= MAX_SANDBOX_PATH_BYTES && (l.FileLook? ==> |l.content| <= MAX_FILE_BYTES)
  }

  function EntryBytes(path: Bytes, l: Look): Bytes
    requires Fits(path, l)
  {
    Bytes4(|path|, Big) + path + Bytes4(l.mode, Big) + KindBytes(l)
  }

  predicate Recordable(t: Tree, p: Path) { p in t.nodes && Sealed(t.nodes[p]) && |Join(p)| <= MAX_SANDBOX_PATH_BYTES }

  function Body(t: Tree, ps: seq<Path>): Bytes
    requires forall p :: p in ps ==> Recordable(t, p)
  {
    if ps == [] then []
    else
      var p := ps[|ps| - 1];
      assert Recordable(t, p);
      Body(t, ps[..|ps| - 1]) + EntryBytes(Join(p), LookOf(t.nodes[p]))
  }

  function Header(t: Tree): Bytes { DOMAIN + [TAG_ROOT] + Bytes4(Permissions(t.rootMode), Big) }

  /** The bytes hashed for an accepted tree. */
  ghost function Stream(t: Tree): Bytes
    requires WellFormed(t) && Acceptable(t)
  {
    Header(t) + Body(t, Order(t))
  }

  /******* The measurement *******/

  /** Reading a file in pieces of the size the system returns. */
  method ReadFile(stream: Bytes, content: Bytes) returns (r: Bytes)
    ensures r == stream + content
  {
    r := stream;
    var done := 0;
    while done < |content|
      invariant 0 <= done <= |content| && r == stream + content[..done]
    {
      var piece: int := *;
      if piece < 1 {
        piece := 1;
      }
      if piece > BUFFER_BYTES {
        piece := BUFFER_BYTES;
      }
      if piece > |content| - done {
        piece := |content| - done;
      }
      r := r + content[done..done + piece];
      assert content[..done + piece] == content[..done] + content[done..done + piece];
      done := done + piece;
    }
    assert content[..|content|] == content;
  }

  /** The part of the stream for one entry, if the entry is accepted. */
  method MeasureEntry(path: Bytes, n: Node, total: nat) returns (r: Option<(Bytes, nat)>)
    requires |path| <= MAX_SANDBOX_PATH_BYTES && total <= MAX_TOTAL_BYTES
    ensures r.Some? <==> Sealed(n) && total + SizeOf(n) <= MAX_TOTAL_BYTES
    ensures r.Some? ==> r.value == (EntryBytes(path, LookOf(n)), total + SizeOf(n))
  {
    hide Bytes4, Bytes8, ReadOnly, Permissions;
    if n.Other? {
      return None;
    }
    var bytes := Bytes4(|path|, Big) + path + Bytes4(Permissions(n.mode), Big);
    if n.Dir? {
      if !ReadOnly(n.mode) {
        return None;
      }
      return Some((bytes + [TAG_DIR], total));
    }
    if n.links != 1 || !ReadOnly(n.mode) || |n.content| > MAX_FILE_BYTES {
      return None;
    }
    if total + |n.content| > MAX_TOTAL_BYTES {
      return None;
    }
    var all := ReadFile(bytes + [TAG_FILE] + Bytes8(|n.content|), n.content);
    assert all == bytes + ([TAG_FILE] + Bytes8(|n.content|) + n.content);
    return Some((all, total + |n.content|));
  }

  ghost predicate SealedSoFar(t: Tree, ps: seq<Path>, k: nat)
    requires k <= |ps| && forall p :: p in ps ==> p in t.nodes
  {
    (forall p :: p in ps[..k] ==> Recordable(t, p)) && Total(t, ps[..k]) <= MAX_TOTAL_BYTES
  }

  lemma NextEntry(t: Tree, ps: seq<Path>, k: nat)
    requires k < |ps| && (forall p :: p in ps ==> p in t.nodes && |Join(p)| <= MAX_SANDBOX_PATH_BYTES)
             && SealedSoFar(t, ps, k)
    requires Sealed(t.nodes[ps[k]]) && Total(t, ps[..k]) + SizeOf(t.nodes[ps[k]]) <= MAX_TOTAL_BYTES
    ensures SealedSoFar(t, ps, k + 1)
    ensures Total(t, ps[..k + 1]) == Total(t, ps[..k]) + SizeOf(t.nodes[ps[k]])
    ensures Body(t, ps[..k + 1]) == Body(t, ps[..k]) + EntryBytes(Join(ps[k]), LookOf(t.nodes[ps[k]]))
  {
    assert ps[..k + 1][..k] == ps[..k] && ps[..k + 1][k] == ps[k];
    assert Recordable(t, ps[k]);
    assert forall p :: p in ps[..k + 1] <==> p in ps[..k] || p == ps[k];
  }

  lemma TotalAt(t: Tree, ps: seq<Path>, k: nat)
    requires k < |ps| && forall p :: p in ps ==> p in t.nodes
    ensures Total(t, ps[..k]) + SizeOf(t.nodes[ps[k]]) <= Total(t, ps)
  {
    assert ps[..k + 1][..k] == ps[..k] && ps[..k + 1][k] == ps[k];
    TotalGrows(t, ps, k + 1);
  }

  /** An entry that stops the measurement makes the tree unacceptable. */
  lemma StoppedAt(t: Tree, ps: seq<Path>, k: nat)
    requires WellFormed(t) && ps == Order(t) && k < |ps| && ps[k] in t.nodes && forall p :: p in ps ==> p in t.nodes
    requires !Sealed(t.nodes[ps[k]]) || Total(t, ps[..k]) + SizeOf(t.nodes[ps[k]]) > MAX_TOTAL_BYTES
    ensures !Acceptable(t)
  {
    hide Sealed, Total, Sorted, WithinLimits, ReadOnly, WellFormed, Order;
    TotalAt(t, ps, k);
  }

  /** `measure_tree` up to the hash: it succeeds exactly on acceptable trees and then hashes their
      stream, in whatever order directories list their entries. */
  method MeasureTree(t: Tree, listing: Listing) returns (r: Result<Bytes, SandboxError>)
    requires WellFormed(t) && IsListing(t, listing)
    ensures r.Ok? <==> Acceptable(t)
    ensures r.Ok? ==> r.value == Stream(t)
  {
    var collected := CollectRelativePaths(t, listing);
    if collected.Err? {
      return Err(InvalidSandbox);
    }
    var ps := Sort(collected.value);
    OrderIsCanonical(t, collected.value);
    if !ReadOnly(t.rootMode) {
      return Err(InvalidSandbox);
    }
    var measured := MeasureEntries(t, ps);
    if measured.None? {
      return Err(InvalidSandbox);
    }
    return Ok(Header(t) + measured.value);
  }

  /** The loop over the sorted entries. */
  method MeasureEntries(t: Tree, ps: seq<Path>) returns (r: Option<Bytes>)
    requires WellFormed(t) && WithinLimits(t) && ReadOnly(t.rootMode) && ps == Order(t)
    ensures r.Some? <==> Acceptable(t)
    ensures r.Some? ==> r.value == Body(t, ps)
  {
    OrderIsListed(t, ps);
    hide Sealed, ReadOnly, LookOf, EntryBytes, Join, WellFormed, Order, WithinLimits, Acceptable;
    var body, total := [], 0;
    for k := 0 to |ps|
      invariant SealedSoFar(t, ps, k) && body == Body(t, ps[..k]) && total == Total(t, ps[..k])
    {
      assert ps[k] in ps;
      var entry := MeasureEntry(Join(ps[k]), t.nodes[ps[k]], total);
      if entry.None? {
        StoppedAt(t, ps, k);
        return None;
      }
      NextEntry(t, ps, k);
      body, total := body + entry.value.0, entry.value.1;
    }
    assert ps[..|ps|] == ps;
    Accepted(t, ps);
    return Some(body);
  }

  lemma OrderIsListed(t: Tree, ps: seq<Path>)
    requires WellFormed(t) && WithinLimits(t) && ps == Order(t)
    ensures forall p :: p in ps <==> p in t.nodes
    ensures forall p :: p in ps ==> |Join(p)| <= MAX_SANDBOX_PATH_BYTES
  {
    forall p | p in ps ensures |Join(p)| <= MAX_SANDBOX_PATH_BYTES {
      assert Walkable(t, p);
    }
  }

  lemma Accepted(t: Tree, ps: seq<Path>)
    requires WellFormed(t) && WithinLimits(t) && ReadOnly(t.rootMode) && ps == Order(t)
    requires (forall p :: p in ps ==> p in t.nodes) && SealedSoFar(t, ps, |ps|)
    ensures Acceptable(t)
  {
    assert ps[..|ps|] == ps;
    forall p | p in t.nodes ensures Sealed(t.nodes[p]) {
      assert p in ps && Recordable(t, p);
    }
  }
}
