/** Task specifications, their validation and the capability policy:
    crates/aios-core/src/task.rs and crates/aios-core/src/policy.rs. */
module Capability {
  import opened Basics

  const MAX_GOAL_CHARS: nat := 8192
  const MAX_IDEMPOTENCY_KEY_BYTES: nat := 128
  const MAX_FILESYSTEM_CAPABILITIES: nat := 128
  const MAX_TOOLS: nat := 64
  const MAX_APPROVAL_ACTIONS: nat := 64
  const MAX_NETWORK_DESTINATIONS: nat := 64
  const MAX_PATH_BYTES: nat := 4096
  const MAX_IDENTIFIER_BYTES: nat := 64

  datatype FileAccess = Read | Write
  datatype FileCapability = FileCapability(path: string, access: FileAccess)
  datatype NetworkTransport = Tcp

  /** The texts that parse as IP addresses. Which they are is left open: they are a library's matter. A
      host has at most 253 bytes, so a finite set holds all that count. */
  const IP_ADDRESSES: set<string>

  datatype NetworkDestination = NetworkDestination(host: string, transport: NetworkTransport, port: nat)
  datatype NetworkPolicy = Deny | Allow(destinations: seq<NetworkDestination>)
  datatype CapabilitySet = CapabilitySet(
    filesystem: seq<FileCapability>, network: NetworkPolicy, tools: seq<string>)
  datatype Budget = Budget(wallTimeSeconds: nat, memoryBytes: nat, maxParallelAgents: nat)
  datatype TaskSpec = TaskSpec(
    idempotencyKey: string,
    goal: string,
    capabilities: CapabilitySet,
    budget: Budget,
    requiredFor: seq<string>)

  datatype CapabilityRequest =
    | File(path: string, access: FileAccess)
    | Network(host: string, transport: NetworkTransport, port: nat)
    | Tool(tool: string, action: string)

  datatype DenialReason = InvalidRequest | CapabilityNotGranted
  datatype PolicyDecision = Permit | Refuse(reason: DenialReason) | ApprovalRequired

  /******* Text predicates *******/

  /** Number of bytes of the UTF-8 form of a text (Rust's `str::len`). */
  function Utf8Length(s: string): nat {
    if s == "" then 0 else
    var c := s[0] as int;
    (if c < 0x80 then 1 else if c < 0x800 then 2 else if c < 0x10000 then 3 else 4) + Utf8Length(s[1..])
  }

  predicate IsAsciiAlphanumeric(c: char) {
    'a' <= c <= 'z' || 'A' <= c <= 'Z' || '0' <= c <= '9'
  }

  predicate IsIdentifierChar(c: char) {
    IsAsciiAlphanumeric(c) || c in {'.', '_', ':', '-'}
  }

  predicate IsValidIdentifier(value: string, maxBytes: nat) {
    value != "" && Utf8Length(value) <= maxBytes && forall i :: 0 <= i < |value| ==> IsIdentifierChar(value[i])
  }

  /** Unicode `White_Space`, which `str::trim` removes. */
  predicate IsWhitespace(c: char) {
    var n := c as int;
    9 <= n <= 13 || n in {0x20, 0x85, 0xA0, 0x1680, 0x2028, 0x2029, 0x202F, 0x205F, 0x3000} || 0x2000 <= n <= 0x200A
  }

  predicate IsValidGoal(goal: string) {
    && (exists i :: 0 <= i < |goal| && !IsWhitespace(goal[i]))
    && |goal| <= MAX_GOAL_CHARS
  }

  /** Splits a text at every occurrence of `separator`, as `str::split` does. */
  function Split(s: string, separator: char): (parts: seq<string>)
    ensures parts != []
  {
    if s == "" then [""] else
    var rest := Split(s[1..], separator);
    if s[0] == separator then [""] + rest else [[s[0]] + rest[0]] + rest[1..]
  }

  predicate IsPlainComponent(component: string) {
    component != "" && component != "." && component != ".."
  }

  predicate IsNormalizedAbsolutePath(path: string) {
    && path != ""
    && path[0] == '/'
    && path != "/"
    && Utf8Length(path) <= MAX_PATH_BYTES
    && '\0' !in path
    && forall component :: component in Split(path, '/')[1..] ==> IsPlainComponent(component)
  }

  predicate PathIsWithin(path: string, capabilityPath: string) {
    || path == capabilityPath
    || (capabilityPath <= path && |capabilityPath| < |path| && path[|capabilityPath|] == '/')
  }

  predicate IsHostLabel(l: string) {
    && l != ""
    && Utf8Length(l) <= 63
    && IsAsciiAlphanumeric(l[0])
    && IsAsciiAlphanumeric(l[|l| - 1])
    && forall i :: 0 <= i < |l| ==> IsAsciiAlphanumeric(l[i]) || l[i] == '-'
  }

  predicate IsValidNetworkHost(host: string) {
    && host != ""
    && Utf8Length(host) <= 253
    && (forall i :: 0 <= i < |host| ==> !('A' <= host[i] <= 'Z'))
    && (host in IP_ADDRESSES || forall part :: part in Split(host, '.') ==> IsHostLabel(part))
  }

  /******* Policy *******/

  const FILESYSTEM_READ := "filesystem.read"
  const FILESYSTEM_WRITE := "filesystem.write"
  const NETWORK_EGRESS := "network.egress"

  /** The action name under which a request is approved. */
  function ActionOf(request: CapabilityRequest): string {
    match request
    case File(_, Read) => FILESYSTEM_READ
    case File(_, Write) => FILESYSTEM_WRITE
    case Network(_, _, _) => NETWORK_EGRESS
    case Tool(_, action) => action
  }

  predicate IsValidRequest(request: CapabilityRequest) {
    match request
    case File(path, _) => IsNormalizedAbsolutePath(path)
    case Network(host, _, port) => IsValidNetworkHost(host) && port != 0
    case Tool(tool, action) =>
      IsValidIdentifier(tool, MAX_IDENTIFIER_BYTES) && IsValidIdentifier(action, MAX_IDENTIFIER_BYTES)
  }

  predicate IsGranted(task: TaskSpec, request: CapabilityRequest) {
    match request
    case File(path, access) =>
      exists capability :: capability in task.capabilities.filesystem
                           && capability.access == access && PathIsWithin(path, capability.path)
    case Network(host, transport, port) =>
      task.capabilities.network.Allow?
      && NetworkDestination(host, transport, port) in task.capabilities.network.destinations
    case Tool(tool, _) => tool in task.capabilities.tools
  }

  /** `CapabilityPolicy::evaluate`, whose caller has validated the specification. */
  function Evaluate(task: TaskSpec, request: CapabilityRequest): PolicyDecision {
    if !IsValidRequest(request) then Refuse(InvalidRequest)
    else if !IsGranted(task, request) then Refuse(CapabilityNotGranted)
    else if ActionOf(request) in task.requiredFor then ApprovalRequired
    else Permit
  }

  /******* Validation *******/

  /** The conditions a specification must meet, stated without the order in which they are checked. */
  ghost predicate WellFormed(spec: TaskSpec) {
    && IsValidGoal(spec.goal)
    && IsValidIdentifier(spec.idempotencyKey, MAX_IDEMPOTENCY_KEY_BYTES)
    && |spec.capabilities.filesystem| <= MAX_FILESYSTEM_CAPABILITIES
    && (forall i :: 0 <= i < |spec.capabilities.filesystem| ==>
                      IsNormalizedAbsolutePath(spec.capabilities.filesystem[i].path))
    && Distinct(spec.capabilities.filesystem)
    && (spec.capabilities.network.Allow? ==> WellFormedDestinations(spec.capabilities.network.destinations))
    && WellFormedIdentifiers(spec.capabilities.tools, MAX_TOOLS)
    && spec.budget.wallTimeSeconds != 0
    && spec.budget.memoryBytes != 0
    && 1 <= spec.budget.maxParallelAgents <= 8
    && WellFormedIdentifiers(spec.requiredFor, MAX_APPROVAL_ACTIONS)
  }

  ghost predicate WellFormedDestinations(destinations: seq<NetworkDestination>) {
    && 1 <= |destinations| <= MAX_NETWORK_DESTINATIONS
    && (forall i :: 0 <= i < |destinations| ==> IsValidNetworkHost(destinations[i].host) && destinations[i].port != 0)
    && Distinct(destinations)
  }

  ghost predicate WellFormedIdentifiers(values: seq<string>, maxEntries: nat) {
    && |values| <= maxEntries
    && (forall i :: 0 <= i < |values| ==> IsValidIdentifier(values[i], MAX_IDENTIFIER_BYTES))
    && Distinct(values)
  }

  /** Errors that a loop over `items` pushes when it reports each rejected item and each item
      already in the set `seen`. */
  function ItemErrors<T(==)>(items: seq<T>, valid: T -> nat, seen: set<T>): nat {
    if items == [] then 0 else
    valid(items[0]) + (if items[0] in seen then 1 else 0) + ItemErrors(items[1..], valid, seen + {items[0]})
  }

  function Flag(failed: bool): nat { if failed then 1 else 0 }

  function PathErrors(c: FileCapability): nat { Flag(!IsNormalizedAbsolutePath(c.path)) }
  function DestinationErrors(d: NetworkDestination): nat { Flag(!IsValidNetworkHost(d.host)) + Flag(d.port == 0) }
  function IdentifierErrors(value: string): nat { Flag(!IsValidIdentifier(value, MAX_IDENTIFIER_BYTES)) }

  /** The number of errors `TaskSpec::validate` collects. */
  function ErrorCount(spec: TaskSpec): nat {
    Flag(!IsValidGoal(spec.goal))
    + Flag(!IsValidIdentifier(spec.idempotencyKey, MAX_IDEMPOTENCY_KEY_BYTES))
    + Flag(|spec.capabilities.filesystem| > MAX_FILESYSTEM_CAPABILITIES)
    + ItemErrors(spec.capabilities.filesystem, PathErrors, {})
    + NetworkErrors(spec.capabilities.network)
    + Flag(|spec.capabilities.tools| > MAX_TOOLS)
    + ItemErrors(spec.capabilities.tools, IdentifierErrors, {})
    + Flag(spec.budget.wallTimeSeconds == 0)
    + Flag(spec.budget.memoryBytes == 0)
    + Flag(!(1 <= spec.budget.maxParallelAgents <= 8))
    + Flag(|spec.requiredFor| > MAX_APPROVAL_ACTIONS)
    + ItemErrors(spec.requiredFor, IdentifierErrors, {})
  }

  function NetworkErrors(network: NetworkPolicy): nat {
    if network.Deny? then 0 else
    Flag(network.destinations == [] || |network.destinations| > MAX_NETWORK_DESTINATIONS)
    + ItemErrors(network.destinations, DestinationErrors, {})
  }

  lemma {:induction false} ItemErrorsZero<T>(items: seq<T>, valid: T -> nat, seen: set<T>)
    ensures ItemErrors(items, valid, seen) == 0 <==>
            && (forall i :: 0 <= i < |items| ==> valid(items[i]) == 0 && items[i] !in seen)
            && Distinct(items)
  {
    if items != [] {
      var tail := items[1..];
      ItemErrorsZero(tail, valid, seen + {items[0]});
      assert forall i :: 0 < i < |items| ==> items[i] == tail[i - 1];
    }
  }

  /** The errors of a list, counted from its end: those of each item, and one more for an item that stands
      earlier in the list as well. */
  function Offences<T(==)>(items: seq<T>, valid: T -> nat, seen: set<T>): nat {
    if items == [] then 0 else
    var k := |items| - 1;
    Offences(items[..k], valid, seen) + valid(items[k]) + if items[k] in seen || items[k] in items[..k] then 1 else 0
  }

  /** Every invalid item and every repetition is reported exactly once, wherever it stands. */
  lemma {:induction false} ErrorsAreCounted<T>(items: seq<T>, valid: T -> nat, seen: set<T>)
    ensures ItemErrors(items, valid, seen) == Offences(items, valid, seen)
    decreases |items|
  {
    if items != [] {
      ErrorsAreCounted(items[1..], valid, seen + {items[0]});
      OffencesFront(items, valid, seen);
    }
  }

  lemma {:induction false} OffencesFront<T>(items: seq<T>, valid: T -> nat, seen: set<T>)
    requires items != []
    ensures Offences(items, valid, seen) ==
            valid(items[0]) + (if items[0] in seen then 1 else 0) + Offences(items[1..], valid, seen + {items[0]})
    decreases |items|
  {
    var k := |items| - 1;
    if k > 0 {
      OffencesFront(items[..k], valid, seen);
      assert items[..k][1..] == items[1..][..k - 1];
      assert items[1..][k - 1] == items[k];
      assert items[..k] == [items[0]] + items[1..][..k - 1];
    }
  }

  /** Validation accepts exactly the well-formed specifications: the seen-set loops detect every
      duplicate wherever it stands. */
  lemma {:induction false} ValidationIsExact(spec: TaskSpec)
    ensures ErrorCount(spec) == 0 <==> WellFormed(spec)
  {
    ItemErrorsZero(spec.capabilities.filesystem, PathErrors, {});
    ItemErrorsZero(spec.capabilities.tools, IdentifierErrors, {});
    ItemErrorsZero(spec.requiredFor, IdentifierErrors, {});
    if spec.capabilities.network.Allow? {
      ItemErrorsZero(spec.capabilities.network.destinations, DestinationErrors, {});
    }
  }

  /** The seen-set loop itself, shared by the filesystem, network, tool and approval lists. */
  method CountItemErrors<T(==)>(items: seq<T>, valid: T -> nat) returns (errors: nat)
    ensures errors == ItemErrors(items, valid, {})
  {
    errors := 0;
    var seen: set<T> := {};
    for i := 0 to |items|
      invariant errors + ItemErrors(items[i..], valid, seen) == ItemErrors(items, valid, {})
    {
      assert items[i..][1..] == items[i + 1..];
      errors := errors + valid(items[i]);
      if items[i] in seen {
        errors := errors + 1;
      }
      seen := seen + {items[i]};
    }
  }
}
