/** The string-level path checks are component-level checks. */
module Paths {
  import opened Capability

  /** A path component: a non-empty name without separator or NUL that is neither `.` nor `..`. */
  predicate IsComponent(c: string) {
    IsPlainComponent(c) && '/' !in c && '\0' !in c
  }

  ghost predicate AreComponents(cs: seq<string>) {
    cs != [] && forall i :: 0 <= i < |cs| ==> IsComponent(cs[i])
  }

  /** The absolute path that names a list of components. */
  function Render(cs: seq<string>): string {
    if cs == [] then "" else "/" + cs[0] + Render(cs[1..])
  }

  /** Splitting a component followed by a rendered list gives back the component and the list. */
  lemma {:induction false} SplitRender(c: string, cs: seq<string>)
    requires '/' !in c
    requires forall i :: 0 <= i < |cs| ==> '/' !in cs[i]
    ensures Split(c + Render(cs), '/') == [c] + cs
    decreases |cs|, |c|
  {
    if c != "" {
      assert (c + Render(cs))[1..] == c[1..] + Render(cs);
      SplitRender(c[1..], cs);
      assert [c[0]] + c[1..] == c;
    } else if cs != [] {
      SplitRender(cs[0], cs[1..]);
      assert c + Render(cs) == Render(cs);
      assert Render(cs)[1..] == cs[0] + Render(cs[1..]);
      assert [cs[0]] + cs[1..] == cs;
    } else {
      assert c + Render(cs) == "";
    }
  }

  /** Every text is the rendering of its parts, and no part holds a separator. */
  lemma {:induction false} RenderSplit(s: string)
    ensures var parts := Split(s, '/');
            && s == parts[0] + Render(parts[1..])
            && (forall i :: 0 <= i < |parts| ==> '/' !in parts[i])
            && (forall i :: 0 <= i < |parts| ==> forall c :: c in parts[i] ==> c in s)
  {
    if s != "" {
      var rest := Split(s[1..], '/');
      RenderSplit(s[1..]);
      assert s == [s[0]] + s[1..];
      if s[0] == '/' {
        assert ([""] + rest)[1..] == rest;
        assert [rest[0]] + rest[1..] == rest;
      } else {
        assert ([[s[0]] + rest[0]] + rest[1..])[1..] == rest[1..];
        assert ([s[0]] + rest[0]) + Render(rest[1..]) == s;
      }
    }
  }

  lemma {:induction false} RenderHasNoNul(cs: seq<string>)
    requires forall i :: 0 <= i < |cs| ==> IsComponent(cs[i])
    ensures '\0' !in Render(cs)
  {
    if cs != [] {
      RenderHasNoNul(cs[1..]);
    }
  }

  /** The components of an accepted path. */
  function Components(path: string): seq<string> { Split(path, '/')[1..] }

  /** An accepted path is the rendering of its components. */
  lemma AcceptedIsRendered(path: string)
    requires IsNormalizedAbsolutePath(path)
    ensures AreComponents(Components(path)) && Render(Components(path)) == path
  {
    var parts := Split(path, '/');
    RenderSplit(path);
    assert parts[0] == "" by {
      assert parts == [""] + Split(path[1..], '/');
    }
    assert path == Render(parts[1..]);
    if parts[1..] == [] {
      assert false;
    }
    forall i | 0 <= i < |parts[1..]| ensures IsComponent(parts[1..][i]) {
      assert parts[1..][i] == parts[i + 1];
      assert parts[1..][i] in parts[1..];
    }
  }

  lemma ComponentsOfRender(cs: seq<string>)
    requires AreComponents(cs)
    ensures Components(Render(cs)) == cs
  {
    SplitRender("", cs);
    assert "" + Render(cs) == Render(cs);
  }

  /** The accepted strings are exactly the renderings, within the length limit, of non-empty
      component lists; and rendering and splitting are inverse on them. */
  lemma {:induction false} AcceptedPathsAreComponentLists(path: string)
    ensures IsNormalizedAbsolutePath(path) <==>
            && Utf8Length(path) <= MAX_PATH_BYTES
            && exists cs :: AreComponents(cs) && path == Render(cs)
  {
    if IsNormalizedAbsolutePath(path) {
      AcceptedIsRendered(path);
    }
    if Utf8Length(path) <= MAX_PATH_BYTES && exists cs :: AreComponents(cs) && path == Render(cs) {
      var cs :| AreComponents(cs) && path == Render(cs);
      ComponentsOfRender(cs);
      RenderHasNoNul(cs);
      assert path[0] == '/' && |path| > 1 && path != "/";
    }
  }

  lemma {:induction false} RenderConcat(a: seq<string>, b: seq<string>)
    ensures Render(a + b) == Render(a) + Render(b)
  {
    if a == [] {
      assert a + b == b;
    } else {
      assert (a + b)[1..] == a[1..] + b;
      RenderConcat(a[1..], b);
    }
  }

  lemma PrefixIsWithin(path: string, p: seq<string>, c: seq<string>)
    requires path == Render(p) && c <= p
    ensures PathIsWithin(path, Render(c))
  {
    var rest := p[|c|..];
    assert p == c + rest;
    RenderConcat(c, rest);
    if rest != [] {
      assert Render(rest)[0] == '/';
    }
  }

  lemma WithinIsPrefix(path: string, c: seq<string>)
    requires AreComponents(c)
    requires Render(c) < path && path[|Render(c)|] == '/'
    ensures c <= Components(path)
  {
    var suffix := path[|Render(c)|..];
    var tail := Split(suffix[1..], '/');
    RenderSplit(suffix);
    assert Split(suffix, '/') == [""] + tail;
    assert ([""] + tail)[1..] == tail;
    RenderConcat(c, tail);
    SplitRender("", c + tail);
    assert path == Render(c) + suffix;
    assert "" + Render(c + tail) == path;
  }

  /** On accepted paths, being within a capability path is having its components as a prefix. */
  lemma {:induction false} WithinIsComponentPrefix(path: string, capabilityPath: string)
    requires IsNormalizedAbsolutePath(path) && IsNormalizedAbsolutePath(capabilityPath)
    ensures PathIsWithin(path, capabilityPath) <==> Components(capabilityPath) <= Components(path)
  {
    AcceptedIsRendered(path);
    AcceptedIsRendered(capabilityPath);
    if Components(capabilityPath) <= Components(path) {
      PrefixIsWithin(path, Components(path), Components(capabilityPath));
    }
    if PathIsWithin(path, capabilityPath) && path != capabilityPath {
      WithinIsPrefix(path, Components(capabilityPath));
    }
  }

  /** The components of some capability with that access are a prefix of the path's. */
  predicate GrantedByComponents(spec: TaskSpec, path: string, access: FileAccess) {
    exists c :: c in spec.capabilities.filesystem && c.access == access && Components(c.path) <= Components(path)
  }

  function FileAction(access: FileAccess): string { if access.Read? then FILESYSTEM_READ else FILESYSTEM_WRITE }

  /** What the policy answers for a file under a valid specification, in terms of components: refused as
      invalid exactly if the path is not accepted; otherwise granted exactly if the components of some
      capability with that access are a prefix of the path's, and then subject to approval. */
  lemma {:induction false} FileDecisionIsByComponents(spec: TaskSpec, path: string, access: FileAccess)
    requires ErrorCount(spec) == 0
    ensures var decision := Evaluate(spec, CapabilityRequest.File(path, access));
            && (decision == Refuse(InvalidRequest) <==> !IsNormalizedAbsolutePath(path))
            && (decision == Permit || decision == ApprovalRequired <==>
                IsNormalizedAbsolutePath(path) && GrantedByComponents(spec, path, access))
            && (decision == ApprovalRequired ==> FileAction(access) in spec.requiredFor)
            && (decision == Permit ==> FileAction(access) !in spec.requiredFor)
  {
    ValidationIsExact(spec);
    hide ErrorCount;
    var files := spec.capabilities.filesystem;
    if IsNormalizedAbsolutePath(path) {
      forall c | c in files ensures PathIsWithin(path, c.path) <==> Components(c.path) <= Components(path) {
        var i :| 0 <= i < |files| && files[i] == c;
        WithinIsComponentPrefix(path, c.path);
      }
      hide IsNormalizedAbsolutePath, PathIsWithin, Components;
    }
  }
}
