/** What a specification lets a Task do, said of its lists and of the request alone, and that the policy
    decides exactly that: crates/aios-core/src/policy.rs. */
module Policy {
  import opened Capability
  import opened Paths

  /******* Host names *******/

  /** Labels joined by dots. */
  function Dotted(ls: seq<string>): string
    requires ls != []
  {
    if |ls| == 1 then ls[0] else ls[0] + "." + Dotted(ls[1..])
  }

  lemma {:induction false} SplitDotted(l: string, ls: seq<string>)
    requires '.' !in l && forall i :: 0 <= i < |ls| ==> '.' !in ls[i]
    ensures Split(l + (if ls == [] then "" else "." + Dotted(ls)), '.') == [l] + ls
    decreases |ls|, |l|
  {
    var rest := if ls == [] then "" else "." + Dotted(ls);
    if l != "" {
      assert (l + rest)[1..] == l[1..] + rest;
      SplitDotted(l[1..], ls);
      assert [l[0]] + l[1..] == l;
    } else if ls != [] {
      var tail := if |ls| == 1 then "" else "." + Dotted(ls[1..]);
      SplitDotted(ls[0], ls[1..]);
      assert Dotted(ls) == ls[0] + tail;
      assert l + rest == rest && rest[1..] == ls[0] + tail;
      assert [ls[0]] + ls[1..] == ls;
    } else {
      assert l + rest == "";
    }
  }

  lemma {:induction false} DottedSplit(s: string)
    ensures Dotted(Split(s, '.')) == s
  {
    if s != "" {
      var rest := Split(s[1..], '.');
      DottedSplit(s[1..]);
      assert s == [s[0]] + s[1..];
      if s[0] == '.' {
        assert ([""] + rest)[1..] == rest;
      } else {
        var parts := [[s[0]] + rest[0]] + rest[1..];
        assert parts[1..] == rest[1..];
      }
    }
  }

  /** One or more labels joined by dots. */
  ghost predicate IsDomainName(host: string) {
    exists ls: seq<string> :: ls != [] && (forall i :: 0 <= i < |ls| ==> IsHostLabel(ls[i])) && host == Dotted(ls)
  }

  lemma PartsMakeDomainName(host: string)
    requires forall part :: part in Split(host, '.') ==> IsHostLabel(part)
    ensures IsDomainName(host)
  {
    hide Split, IsHostLabel, Dotted;
    DottedSplit(host);
    var parts := Split(host, '.');
    assert forall i :: 0 <= i < |parts| ==> parts[i] in parts;
  }

  lemma LabelHasNoDot(l: string)
    requires IsHostLabel(l)
    ensures '.' !in l
  {
    hide Utf8Length;
  }

  lemma DomainNameHasLabels(ls: seq<string>)
    requires ls != [] && forall i :: 0 <= i < |ls| ==> IsHostLabel(ls[i])
    ensures Split(Dotted(ls), '.') == ls
  {
    hide Split, IsHostLabel, Dotted;
    forall i | 0 <= i < |ls| ensures '.' !in ls[i] {
      LabelHasNoDot(ls[i]);
    }
    SplitDotted(ls[0], ls[1..]);
    DottedFront(ls);
    assert [ls[0]] + ls[1..] == ls;
  }

  lemma DottedFront(ls: seq<string>)
    requires ls != []
    ensures Dotted(ls) == ls[0] + if ls[1..] == [] then "" else "." + Dotted(ls[1..])
  {
    hide Split;
    if |ls| == 1 {
      assert ls[0] + "" == ls[0];
    } else {
      assert ls[0] + "." + Dotted(ls[1..]) == ls[0] + ("." + Dotted(ls[1..]));
    }
  }

  /** The accepted hosts are exactly the IP addresses and the dot-joins of labels, within the length limit
      and without capital letters. */
  lemma {:induction false} AcceptedHostsAreLabelLists(host: string)
    ensures IsValidNetworkHost(host) <==>
            && host != "" && Utf8Length(host) <= 253 && (forall i :: 0 <= i < |host| ==> !('A' <= host[i] <= 'Z'))
            && (host in IP_ADDRESSES || IsDomainName(host))
  {
    hide Utf8Length, Split, IsHostLabel, Dotted;
    if forall part :: part in Split(host, '.') ==> IsHostLabel(part) {
      PartsMakeDomainName(host);
    }
    if IsDomainName(host) {
      var ls :| ls != [] && (forall i :: 0 <= i < |ls| ==> IsHostLabel(ls[i])) && host == Dotted(ls);
      DomainNameHasLabels(ls);
      assert forall part :: part in Split(host, '.') ==> IsHostLabel(part);
    }
  }

  /******* What a request asks for *******/

  /** The request names a path, a destination or a tool and action that can exist. */
  ghost predicate WellStated(request: CapabilityRequest) {
    match request
    case File(path, _) =>
      Utf8Length(path) <= MAX_PATH_BYTES && exists cs :: AreComponents(cs) && path == Render(cs)
    case Network(host, _, port) => IsValidNetworkHost(host) && port > 0
    case Tool(tool, action) =>
      IsValidIdentifier(tool, MAX_IDENTIFIER_BYTES) && IsValidIdentifier(action, MAX_IDENTIFIER_BYTES)
  }

  /** Some capability of the specification grants it. */
  ghost predicate Admits(spec: TaskSpec, request: CapabilityRequest) {
    var granted := spec.capabilities;
    match request
    case File(path, access) => GrantedByComponents(spec, path, access)
    case Network(host, transport, port) =>
      && granted.network.Allow?
      && exists i :: 0 <= i < |granted.network.destinations|
                     && granted.network.destinations[i] == NetworkDestination(host, transport, port)
    case Tool(tool, _) => exists i :: 0 <= i < |granted.tools| && granted.tools[i] == tool
  }

  /** The name under which it is subject to approval. */
  function NameOf(request: CapabilityRequest): string {
    match request
    case File(_, access) => if access == Write then "filesystem.write" else "filesystem.read"
    case Network(_, _, _) => "network.egress"
    case Tool(_, action) => action
  }

  /** The specification wants it approved. */
  ghost predicate NeedsConsent(spec: TaskSpec, request: CapabilityRequest) {
    exists i :: 0 <= i < |spec.requiredFor| && spec.requiredFor[i] == NameOf(request)
  }

  /******* What the policy decides *******/

  ghost predicate Decides(spec: TaskSpec, request: CapabilityRequest, decision: PolicyDecision) {
    && (decision == Refuse(InvalidRequest) <==> !WellStated(request))
    && (decision == Refuse(CapabilityNotGranted) <==> WellStated(request) && !Admits(spec, request))
    && (decision == ApprovalRequired <==> WellStated(request) && Admits(spec, request) && NeedsConsent(spec, request))
    && (decision == Permit <==> WellStated(request) && Admits(spec, request) && !NeedsConsent(spec, request))
  }

  /** Under a valid specification a tool call is invalid exactly if tool or action is not an identifier
      within 64 bytes, granted exactly if the tool is one of those listed, and subject to approval exactly
      if granted with an action that is listed. */
  lemma {:induction false} ToolDecision(spec: TaskSpec, tool: string, action: string)
    requires ErrorCount(spec) == 0
    ensures var decision := Evaluate(spec, CapabilityRequest.Tool(tool, action));
            var stated := IsValidIdentifier(tool, 64) && IsValidIdentifier(action, 64);
            && (decision == Refuse(InvalidRequest) <==> !stated)
            && (decision == Permit || decision == ApprovalRequired <==> stated && tool in spec.capabilities.tools)
            && (decision == ApprovalRequired <==>
                stated && tool in spec.capabilities.tools && action in spec.requiredFor)
    ensures Decides(spec, CapabilityRequest.Tool(tool, action), Evaluate(spec, CapabilityRequest.Tool(tool, action)))
  {
    hide IsValidIdentifier, ErrorCount;
    var tools := spec.capabilities.tools;
    assert tool in tools <==> exists i :: 0 <= i < |tools| && tools[i] == tool;
    assert action in spec.requiredFor <==> exists i :: 0 <= i < |spec.requiredFor| && spec.requiredFor[i] == action;
  }

  /** The same for an exchange: invalid exactly if the host is not accepted or the port is 0, granted
      exactly if some destination has that host, transport and port. */
  lemma {:induction false} NetworkDecision(spec: TaskSpec, host: string, transport: NetworkTransport, port: nat)
    requires ErrorCount(spec) == 0
    ensures var decision := Evaluate(spec, CapabilityRequest.Network(host, transport, port));
            var stated := IsValidNetworkHost(host) && port != 0;
            var granted := spec.capabilities.network.Allow?
              && exists d :: d in spec.capabilities.network.destinations && d.host == host && d.transport == transport
                             && d.port == port;
            && (decision == Refuse(InvalidRequest) <==> !stated)
            && (decision == Permit || decision == ApprovalRequired <==> stated && granted)
            && (decision == ApprovalRequired <==> stated && granted && "network.egress" in spec.requiredFor)
    ensures Decides(spec, CapabilityRequest.Network(host, transport, port),
                    Evaluate(spec, CapabilityRequest.Network(host, transport, port)))
  {
    hide IsValidNetworkHost, ErrorCount;
    var asked := NetworkDestination(host, transport, port);
    if spec.capabilities.network.Allow? {
      var ds := spec.capabilities.network.destinations;
      assert asked in ds <==> exists i :: 0 <= i < |ds| && ds[i] == asked;
      assert asked in ds <==> exists d :: d in ds && d.host == host && d.transport == transport && d.port == port;
    }
    assert NETWORK_EGRESS in spec.requiredFor <==>
           exists i :: 0 <= i < |spec.requiredFor| && spec.requiredFor[i] == NETWORK_EGRESS;
  }

  lemma FileDecision(spec: TaskSpec, path: string, access: FileAccess)
    requires ErrorCount(spec) == 0
    ensures Decides(spec, CapabilityRequest.File(path, access), Evaluate(spec, CapabilityRequest.File(path, access)))
  {
    hide IsNormalizedAbsolutePath, ErrorCount, Utf8Length, AreComponents, Render, GrantedByComponents, IsGranted;
    AcceptedPathsAreComponentLists(path);
    FileDecisionIsByComponents(spec, path, access);
    var name := NameOf(CapabilityRequest.File(path, access));
    assert name == FileAction(access);
    assert name in spec.requiredFor <==> exists i :: 0 <= i < |spec.requiredFor| && spec.requiredFor[i] == name;
  }

  /** The policy decides what the specification's lists say, for every request. */
  lemma {:induction false} PolicyFollowsCapabilities(spec: TaskSpec, request: CapabilityRequest)
    requires ErrorCount(spec) == 0
    ensures Decides(spec, request, Evaluate(spec, request))
  {
    hide *;
    match request
    case File(path, access) => FileDecision(spec, path, access);
    case Network(host, transport, port) => NetworkDecision(spec, host, transport, port);
    case Tool(tool, action) => ToolDecision(spec, tool, action);
  }
}
