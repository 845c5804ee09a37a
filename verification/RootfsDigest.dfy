/** The hashed stream determines what it records of the tree, and digests print and parse exactly:
    crates/aios-adapter-process/src/rootfs.rs. SHA-256 (FIPS 180-4) itself is not modelled. */
module RootfsDigest {
  import opened Basics
  import opened Words
  import opened RootfsTree
  import opened RootfsWalk
  import opened RootfsStream

  /******* Reading the stream back *******/

  /** The first entry of a stream body, with what follows it. */
  function ParseEntry(b: Bytes): Option<(Bytes, Look, Bytes)> {
    if |b| < 4 then None else
    var n: nat := Word4(b[..4], Big);
    if |b| < n + 9 then None else
    var path, mode, tag := b[4..n + 4], Word4(b[n + 4..n + 8], Big), b[n + 8];
    if tag == TAG_DIR then Some((path, DirLook(mode), b[n + 9..]))
    else if tag != TAG_FILE || |b| < n + 17 then None
    else
      var size := Word8(b[n + 9..n + 17]);
      if |b| < n + 17 + size then None
      else Some((path, FileLook(mode, b[n + 17..n + 17 + size]), b[n + 17 + size..]))
  }

  lemma EntryLayout(path: Bytes, l: Look, rest: Bytes)
    requires Fits(path, l)
    ensures var n, b := |path|, EntryBytes(path, l) + rest;
            && |b| >= n + 9 && b[..4] == Bytes4(n, Big) && b[4..n + 4] == path && b[n + 4..n + 8] == Bytes4(l.mode, Big)
            && b[n + 8..] == KindBytes(l) + rest
  {
    hide Bytes4;
    var n, b := |path|, EntryBytes(path, l) + rest;
    assert b == Bytes4(n, Big) + (path + (Bytes4(l.mode, Big) + (KindBytes(l) + rest)));
  }

  lemma FileLayout(l: Look, rest: Bytes)
    requires l.FileLook? && |l.content| <= MAX_FILE_BYTES
    ensures var k := KindBytes(l) + rest;
            && |k| >= 9 + |l.content| && k[0] == TAG_FILE && k[1..9] == Bytes8(|l.content|)
            && k[9..9 + |l.content|] == l.content && k[9 + |l.content|..] == rest
  {
    hide Bytes8;
    assert KindBytes(l) + rest == [TAG_FILE] + (Bytes8(|l.content|) + (l.content + rest));
  }

  lemma SliceOfSlice(b: Bytes, k: Bytes, m: nat, i: nat, j: nat)
    requires m <= |b| && b[m..] == k && i <= j <= |k|
    ensures m + j <= |b| && b[m + i..m + j] == k[i..j] && b[m + j..] == k[j..]
  {
    forall x | 0 <= x < j - i ensures b[m + i..m + j][x] == k[i..j][x] {
      assert b[m..][i + x] == k[i + x];
    }
    forall x | 0 <= x < |k| - j ensures b[m + j..][x] == k[j..][x] {
      assert b[m..][j + x] == k[j + x];
    }
  }

  /** An entry is read back as recorded, whatever follows it. */
  lemma {:induction false} ParseEntryBytes(path: Bytes, l: Look, rest: Bytes)
    requires Fits(path, l)
    ensures ParseEntry(EntryBytes(path, l) + rest) == Some((path, l, rest))
  {
    hide EntryBytes, Bytes4, Word4, Bytes8, Word8;
    var n, b, k := |path|, EntryBytes(path, l) + rest, KindBytes(l) + rest;
    EntryLayout(path, l, rest);
    assert b[n + 8] == k[0];
    if l.FileLook? {
      var size := |l.content|;
      FileLayout(l, rest);
      SliceOfSlice(b, k, n + 8, 1, 9);
      SliceOfSlice(b, k, n + 8, 9, 9 + size);
    } else {
      assert k == [TAG_DIR] + rest;
      SliceOfSlice(b, k, n + 8, 1, 1);
    }
  }

  /******* Bodies *******/

  lemma {:induction false} BodyFront(t: Tree, ps: seq<Path>)
    requires ps != [] && Recordable(t, ps[0]) && forall p :: p in ps ==> Recordable(t, p)
    ensures Body(t, ps) == EntryBytes(Join(ps[0]), LookOf(t.nodes[ps[0]])) + Body(t, ps[1..])
    decreases ps
  {
    hide EntryBytes, LookOf, Join;
    var k := |ps| - 1;
    assert Recordable(t, ps[0]) && Recordable(t, ps[k]);
    if k == 0 {
      assert ps[..0] == [] && ps[1..] == [];
    } else {
      BodyFront(t, ps[..k]);
      assert ps[..k][1..] == ps[1..][..k - 1];
      assert ps[1..][k - 1] == ps[k] && ps[..k][0] == ps[0];
    }
  }

  /** Equal bodies record the same paths with the same looks. */
  lemma {:induction false} BodyIsInjective(t: Tree, ps: seq<Path>, u: Tree, qs: seq<Path>)
    requires (forall p :: p in ps ==> Recordable(t, p) && Names(p))
             && (forall q :: q in qs ==> Recordable(u, q) && Names(q))
    requires Body(t, ps) == Body(u, qs)
    ensures ps == qs
    ensures forall p :: p in ps ==> Recordable(t, p) && Recordable(u, p) && LookOf(t.nodes[p]) == LookOf(u.nodes[p])
    decreases ps
  {
    hide EntryBytes, LookOf, Join, Sealed, Names, ParseEntry;
    assert (ps != [] ==> Recordable(t, ps[0])) && (qs != [] ==> Recordable(u, qs[0]));
    if ps == [] {
      EmptyBody(u, qs);
    } else if qs == [] {
      EmptyBody(t, ps);
    } else {
      var p, q := ps[0], qs[0];
      RecordableFits(t, p);
      RecordableFits(u, q);
      BodyFront(t, ps);
      BodyFront(u, qs);
      ParseEntryBytes(Join(p), LookOf(t.nodes[p]), Body(t, ps[1..]));
      ParseEntryBytes(Join(q), LookOf(u.nodes[q]), Body(u, qs[1..]));
      JoinIsInjective(p, q);
      BodyIsInjective(t, ps[1..], u, qs[1..]);
      assert ps == [p] + ps[1..] && qs == [q] + qs[1..];
    }
  }

  lemma RecordableFits(t: Tree, p: Path)
    requires Recordable(t, p)
    ensures Fits(Join(p), LookOf(t.nodes[p]))
  {
  }

  lemma EmptyBody(t: Tree, ps: seq<Path>)
    requires forall p :: p in ps ==> Recordable(t, p)
    ensures Body(t, ps) == [] <==> ps == []
  {
  }

  /******* Streams *******/

  /** What the measurement sees of a tree: permission bits, kinds, names and contents. */
  ghost predicate SameAppearance(t: Tree, u: Tree)
    requires (forall p :: p in t.nodes ==> Sealed(t.nodes[p])) && (forall p :: p in u.nodes ==> Sealed(u.nodes[p]))
  {
    && Permissions(t.rootMode) == Permissions(u.rootMode) && t.nodes.Keys == u.nodes.Keys
    && forall p :: p in t.nodes ==> LookOf(t.nodes[p]) == LookOf(u.nodes[p])
  }

  lemma {:induction false} SameBody(t: Tree, u: Tree, ps: seq<Path>)
    requires forall p :: p in ps ==> Recordable(t, p) && Recordable(u, p) && LookOf(t.nodes[p]) == LookOf(u.nodes[p])
    ensures Body(t, ps) == Body(u, ps)
    decreases ps
  {
    hide EntryBytes, LookOf, Join, Sealed;
    if ps != [] {
      assert ps[|ps| - 1] in ps;
      SameBody(t, u, ps[..|ps| - 1]);
    }
  }

  lemma HeaderDetermines(t: Tree, u: Tree, b: Bytes, c: Bytes)
    requires Header(t) + b == Header(u) + c
    ensures Permissions(t.rootMode) == Permissions(u.rootMode) && b == c
  {
    hide Bytes4, Word4, Permissions;
    var h, g := Header(t), Header(u);
    assert |h| == 32 && |g| == 32;
    assert h == (h + b)[..32] && g == (g + c)[..32] && b == (h + b)[32..] && c == (g + c)[32..];
    assert h[28..] == Bytes4(Permissions(t.rootMode), Big) && g[28..] == Bytes4(Permissions(u.rootMode), Big);
  }

  lemma OrderIsRecordable(t: Tree)
    requires WellFormed(t) && Acceptable(t)
    ensures forall p :: p in Order(t) ==> Recordable(t, p) && Names(p)
  {
    forall p | p in Order(t) ensures Recordable(t, p) && Names(p) {
      assert p in t.nodes && Walkable(t, p);
    }
  }

  /** The stream of an accepted tree is canonical and injective: two accepted trees have equal streams
      exactly if they look the same. */
  lemma {:induction false} StreamsDetermineTrees(t: Tree, u: Tree)
    requires WellFormed(t) && WellFormed(u) && Acceptable(t) && Acceptable(u)
    ensures Stream(t) == Stream(u) <==> SameAppearance(t, u)
  {
    OrderIsRecordable(t);
    OrderIsRecordable(u);
    if Stream(t) == Stream(u) {
      EqualStreams(t, u);
    }
    if SameAppearance(t, u) {
      EqualLooks(t, u);
    }
  }

  lemma EqualStreams(t: Tree, u: Tree)
    requires WellFormed(t) && WellFormed(u) && Acceptable(t) && Acceptable(u) && Stream(t) == Stream(u)
    ensures SameAppearance(t, u)
  {
    var ps, qs := Order(t), Order(u);
    hide Order, LookOf, Sealed, Join, Names, Header, WithinLimits, ReadOnly, WellFormed, Body, Total, Recordable,
         Sorted;
    OrderIsRecordable(t);
    OrderIsRecordable(u);
    HeaderDetermines(t, u, Body(t, ps), Body(u, qs));
    BodyIsInjective(t, ps, u, qs);
    Looks(t, u, ps);
  }

  lemma Looks(t: Tree, u: Tree, ps: seq<Path>)
    requires Lists(ps, t.nodes.Keys) && Lists(ps, u.nodes.Keys) && Permissions(t.rootMode) == Permissions(u.rootMode)
    requires forall p :: p in ps ==> Recordable(t, p) && Recordable(u, p) && LookOf(t.nodes[p]) == LookOf(u.nodes[p])
    ensures (forall p :: p in t.nodes ==> Sealed(t.nodes[p])) && (forall p :: p in u.nodes ==> Sealed(u.nodes[p]))
    ensures SameAppearance(t, u)
  {
    forall p ensures p in t.nodes <==> p in u.nodes {
      assert p in ps <==> p in t.nodes.Keys;
    }
  }

  lemma EqualLooks(t: Tree, u: Tree)
    requires WellFormed(t) && WellFormed(u) && Acceptable(t) && Acceptable(u) && SameAppearance(t, u)
    ensures Stream(t) == Stream(u)
  {
    var ps, qs := Order(t), Order(u);
    OrderIsRecordable(t);
    OrderIsRecordable(u);
    SortedIsUnique(ps, qs);
    SameBody(t, u, ps);
    hide Order, LookOf, Sealed, Join, WithinLimits, ReadOnly, WellFormed, Body, Bytes4;
    assert Header(t) == Header(u);
  }

  /** The stream does not tell set-user-id, set-group-id and sticky bits apart: a tree whose only file
      has mode 0o4555 and one where it has 0o555 look the same. */
  lemma {:induction false} SpecialBitsAreInvisible()
    ensures var t, u := Tree(0x16D, map[[[97]] := File(0x96D, 1, [])]), Tree(0x16D, map[[[97]] := File(0x16D, 1, [])]);
            t != u && WellFormed(t) && WellFormed(u) && Acceptable(t) && Acceptable(u) && Stream(t) == Stream(u)
  {
    var t, u := Tree(0x16D, map[[[97]] := File(0x96D, 1, [])]), Tree(0x16D, map[[[97]] := File(0x16D, 1, [])]);
    LoneFile(0x96D, []);
    LoneFile(0x16D, []);
    assert t.nodes[[[97]]] != u.nodes[[[97]]];
    assert SameAppearance(t, u);
    EqualLooks(t, u);
  }

  lemma LoneFile(mode: u32, content: Bytes)
    requires ReadOnly(mode) && |content| <= MAX_FILE_BYTES
    ensures var t := Tree(0x16D, map[[[97]] := File(mode, 1, content)]);
            WellFormed(t) && Acceptable(t) && Order(t) == [[[97]]]
  {
    var t, p := Tree(0x16D, map[[[97]] := File(mode, 1, content)]), [[97]];
    assert ReadOnly(0x16D);
    hide ReadOnly, Order, Sorted;
    assert t.nodes.Keys == {p} && |t.nodes.Keys| == 1;
    LoneName(t, p);
    LoneOrder(t, p);
    hide Join, WellFormed;
    LoneTotal(t, p);
  }

  lemma LoneName(t: Tree, p: Path)
    requires p == [[97]] && t.nodes.Keys == {p} && t.nodes[p].File?
    ensures WellFormed(t) && WithinLimits(t)
  {
    assert Parent(p) == [] && Join(p) == [97];
  }

  lemma LoneTotal(t: Tree, p: Path)
    requires t.nodes.Keys == {p} && t.nodes[p].File?
    ensures Total(t, [p]) == |t.nodes[p].content|
  {
    assert [p][..0] == [];
  }

  lemma LoneOrder(t: Tree, p: Path)
    requires WellFormed(t) && t.nodes.Keys == {p}
    ensures Order(t) == [p]
  {
    hide Join, WellFormed, Order;
    var ps := Order(t);
    forall i | 0 <= i < |ps| ensures ps[i] in [p] {
      assert ps[i] in ps && ps[i] in t.nodes.Keys;
    }
    assert p in t.nodes.Keys;
    SortedIsUnique(ps, [p]);
  }

  /** The bytes hashed for a tree of mode 0o555 whose only entry is a file "a" of mode 0o555 that holds
      "hi": domain, root, and for the entry the length of its path, the path, its mode, its kind, the
      length of its content and the content, all numbers with the most significant byte first. */
  lemma {:induction false} KnownStream()
    ensures var t := Tree(0x16D, map[[[97]] := File(0x16D, 1, [104, 105])]);
            && WellFormed(t) && Acceptable(t)
            && Stream(t) == DOMAIN + [82, 0, 0, 1, 0x6D]
               + [0, 0, 0, 1, 97, 0, 0, 1, 0x6D, 70, 0, 0, 0, 0, 0, 0, 0, 2, 104, 105]
  {
    var t, p := Tree(0x16D, map[[[97]] := File(0x16D, 1, [104, 105])]), [[97]];
    LoneFile(0x16D, [104, 105]);
    hide *;
    KnownParts(t, p);
    KnownEntry();
    StreamOfOne(t, p);
  }

  lemma KnownParts(t: Tree, p: Path)
    requires t == Tree(0x16D, map[[[97]] := File(0x16D, 1, [104, 105])]) && p == [[97]]
    ensures Join(p) == [97] && Recordable(t, p) && LookOf(t.nodes[p]) == FileLook(0x16D, [104, 105])
    ensures Header(t) == DOMAIN + [82, 0, 0, 1, 0x6D]
  {
    KnownNumbers();
    hide Bytes4;
    assert [TAG_ROOT] + [0, 0, 1, 0x6D] == [82, 0, 0, 1, 0x6D];
  }

  lemma StreamOfOne(t: Tree, p: Path)
    requires WellFormed(t) && Acceptable(t) && Order(t) == [p] && Recordable(t, p)
    ensures Stream(t) == Header(t) + EntryBytes(Join(p), LookOf(t.nodes[p]))
  {
    hide WellFormed, Acceptable, Order, Recordable, Header, EntryBytes, Join, LookOf;
    KnownBody(t, p);
  }

  lemma KnownNumbers()
    ensures Bytes4(0x16D, Big) == [0, 0, 1, 0x6D] && Bytes4(1, Big) == [0, 0, 0, 1]
    ensures Bytes8(2) == [0, 0, 0, 0, 0, 0, 0, 2]
  {
    BigEndian(0, 0, 1, 0x6D);
    BigEndian(0, 0, 0, 1);
    BigEndian(0, 0, 0, 0);
    BigEndian(0, 0, 0, 2);
    hide Bytes4;
  }

  lemma BigEndian(a: u8, b: u8, c: u8, d: u8)
    ensures Bytes4(0x100_0000 * a + 0x1_0000 * b + 0x100 * c + d, Big) == [a, b, c, d]
  {
    var x := 0x100_0000 * a + 0x1_0000 * b + 0x100 * c + d;
    assert x / 0x1_0000 == 0x100 * a + b && x % 0x1_0000 == 0x100 * c + d;
    assert Bytes2(0x100 * a + b, Big) == [a, b] && Bytes2(0x100 * c + d, Big) == [c, d];
    assert [a, b] + [c, d] == [a, b, c, d];
  }

  lemma KnownEntry()
    ensures EntryBytes([97], FileLook(0x16D, [104, 105])) ==
            [0, 0, 0, 1, 97, 0, 0, 1, 0x6D, 70, 0, 0, 0, 0, 0, 0, 0, 2, 104, 105]
  {
    hide Bytes4, Bytes8;
    KnownNumbers();
  }

  lemma KnownBody(t: Tree, p: Path)
    requires Recordable(t, p)
    ensures Body(t, [p]) == EntryBytes(Join(p), LookOf(t.nodes[p]))
  {
    hide EntryBytes, LookOf, Join;
    assert [p][..0] == [];
  }

  /******* Digests as text *******/

  const DIGEST_BYTES: nat := 32

  function HexDigit(x: nat): u8
    requires x < 16
  {
    if x < 10 then 48 + x else 87 + x
  }

  /** `decode_hex`: digits and lower-case letters only. */
  function DecodeHex(b: u8): Option<nat> {
    if 48 <= b <= 57 then Some(b - 48) else if 97 <= b <= 102 then Some(b - 87) else None
  }

  lemma HexDigits(b: u8, x: nat)
    requires x < 16
    ensures DecodeHex(b) == Some(x) <==> b == HexDigit(x)
  {
  }

  /** `Display`: two digits a byte. */
  function Print(bytes: Bytes): (s: Bytes)
    ensures |s| == 2 * |bytes|
    ensures forall i :: 0 <= i < |bytes| ==>
                      s[2 * i] == HexDigit(bytes[i] / 16)
                      && s[2 * i + 1] == HexDigit(bytes[i] % 16)
  {
    if bytes == [] then []
    else
      var k := |bytes| - 1;
      Print(bytes[..k]) + [HexDigit(bytes[k] / 16), HexDigit(bytes[k] % 16)]
  }

  lemma PairDetermines(high: u8, low: u8, x: u8)
    ensures high == HexDigit(x / 16) && low == HexDigit(x % 16) <==>
            DecodeHex(high).Some? && DecodeHex(low).Some? && DecodeHex(high).value * 16 + DecodeHex(low).value == x
  {
    HexDigits(high, x / 16);
    HexDigits(low, x % 16);
  }

  /** `from_str` accepts exactly the texts that `Display` prints, and gives back the digest: printing and
      parsing are inverse in both directions. */
  method FromStr(value: Bytes) returns (r: Result<Bytes, SandboxError>)
    ensures r.Ok? <==> exists digest: Bytes :: |digest| == DIGEST_BYTES && Print(digest) == value
    ensures r.Ok? ==> |r.value| == DIGEST_BYTES && Print(r.value) == value
  {
    if |value| != 2 * DIGEST_BYTES {
      return Err(InvalidSandbox);
    }
    var bytes := new u8[DIGEST_BYTES](_ => 0);
    for i := 0 to DIGEST_BYTES
      invariant forall k :: 0 <= k < i ==>
                      value[2 * k] == HexDigit(bytes[k] / 16)
                      && value[2 * k + 1] == HexDigit(bytes[k] % 16)
    {
      var high, low := DecodeHex(value[2 * i]), DecodeHex(value[2 * i + 1]);
      if high.None? || low.None? {
        NotPrinted(value, i);
        return Err(InvalidSandbox);
      }
      PairDetermines(value[2 * i], value[2 * i + 1], high.value * 16 + low.value);
      bytes[i] := high.value * 16 + low.value;
    }
    Printed(value, bytes[..]);
    return Ok(bytes[..]);
  }

  lemma Printed(value: Bytes, digest: Bytes)
    requires |value| == 2 * |digest|
    requires forall k :: 0 <= k < |digest| ==>
                      value[2 * k] == HexDigit(digest[k] / 16)
                      && value[2 * k + 1] == HexDigit(digest[k] % 16)
    ensures Print(digest) == value
  {
    hide HexDigit;
    forall j | 0 <= j < |value| ensures Print(digest)[j] == value[j] {
      assert j == 2 * (j / 2) || j == 2 * (j / 2) + 1;
      assert 0 <= j / 2 < |digest|;
      assert value[2 * (j / 2)] == Print(digest)[2 * (j / 2)]
             && value[2 * (j / 2) + 1] == Print(digest)[2 * (j / 2) + 1];
    }
  }

  lemma NotPrinted(value: Bytes, i: nat)
    requires 2 * i + 1 < |value| && (DecodeHex(value[2 * i]).None? || DecodeHex(value[2 * i + 1]).None?)
    ensures forall digest: Bytes :: Print(digest) != value
  {
    forall digest: Bytes | |value| == 2 * |digest| ensures Print(digest) != value {
      PairDetermines(value[2 * i], value[2 * i + 1], digest[i]);
    }
  }

  /** Digits and lower-case letters, the high half first. */
  lemma {:induction false} KnownDigest()
    ensures Print([0xAB, 0x09, 0xF0]) == [97, 98, 48, 57, 102, 48]
  {
    Printed([97, 98, 48, 57, 102, 48], [0xAB, 0x09, 0xF0]);
  }

  /** Different digests print differently. */
  lemma {:induction false} PrintIsInjective(a: Bytes, b: Bytes)
    requires Print(a) == Print(b)
    ensures a == b
  {
    forall i | 0 <= i < |a| ensures a[i] == b[i] {
      PairDetermines(Print(a)[2 * i], Print(a)[2 * i + 1], a[i]);
      PairDetermines(Print(b)[2 * i], Print(b)[2 * i + 1], b[i]);
    }
  }
}
