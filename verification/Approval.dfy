/** Pending approvals and linear grants: crates/aios-runtime/src/approval.rs. */
module Approval {
  import opened Basics
  import opened Capability
  import opened Audit

  const MAX_MAX_PENDING_APPROVALS: nat := 65536
  /** Durations and instants count nanoseconds. */
  const MILLISECOND: nat := 1_000_000
  const SECOND: nat := 1_000_000_000
  const MAX_MAX_TTL: nat := 24 * 60 * 60 * SECOND
  const DEFAULT_MAX_PENDING_APPROVALS: nat := 1024
  const DEFAULT_MAX_TTL: nat := 15 * 60 * SECOND
  const MAX_ACTION_BYTES: nat := 64
  /** The last instant that the platform clock can represent: 64-bit signed seconds. */
  const MAX_INSTANT: nat := 0x7FFF_FFFF_FFFF_FFFF * SECOND + (SECOND - 1)

  datatype ApprovalError =
    InvalidConfig | InvalidRequest | DuplicateOperation | CapacityExceeded | NotFound | Expired | ScopeMismatch

  datatype PendingApproval = PendingApproval(
    task: TaskId, operation: OperationId, action: string, deadline: nat)

  datatype ApprovalGrant = ApprovalGrant(
    approval: ApprovalId, task: TaskId, operation: OperationId, action: string, deadline: nat)
  {
    /** `ApprovalGrant::authorize`: the deadline is checked before the scope. */
    function Authorize(task: TaskId, operation: OperationId, action: string, now: nat)
      : Result<ApprovalId, ApprovalError>
    {
      if now >= deadline then Err(Expired)
      else if this.task != task || this.operation != operation || this.action != action then Err(ScopeMismatch)
      else Ok(approval)
    }
  }

  datatype ApprovalRequest = ApprovalRequest(
    approval: ApprovalId, task: TaskId, operation: OperationId, action: string, expiresAfterMs: nat)

  predicate IsValidAction(action: string) { IsValidIdentifier(action, MAX_ACTION_BYTES) }

  predicate IsValidConfig(maxPending: nat, maxTtl: nat) {
    0 < maxPending <= MAX_MAX_PENDING_APPROVALS && 0 < maxTtl <= MAX_MAX_TTL
  }

  function DurationMs(duration: nat): Result<nat, ApprovalError> {
    if duration / MILLISECOND <= U64_MAX then Ok(duration / MILLISECOND) else Err(ApprovalError.InvalidRequest)
  }

  /** The authority's maps as a value. */
  datatype Authority = Authority(
    pending: map<ApprovalId, PendingApproval>,
    index: map<(TaskId, OperationId), ApprovalId>,
    maxPending: nat,
    maxTtl: nat)
  {
    /** The two maps are inverse and within the limit. */
    ghost predicate Consistent() {
      && IsValidConfig(maxPending, maxTtl)
      && (forall a :: a in pending ==> KeyOf(a) in index && index[KeyOf(a)] == a)
      && (forall k :: k in index ==> index[k] in pending && KeyOf(index[k]) == k)
      && |pending| <= maxPending
    }

    function KeyOf(a: ApprovalId): (TaskId, OperationId)
      requires a in pending
    {
      (pending[a].task, pending[a].operation)
    }

    function Insert(a: ApprovalId, p: PendingApproval): Authority {
      this.(pending := pending[a := p], index := index[(p.task, p.operation) := a])
    }

    /** `request`, reading the clock as `now` and drawing `id` as the new identifier. */
    function Request(task: TaskId, operation: OperationId, action: string, ttl: nat, now: nat, id: ApprovalId)
      : (Authority, Result<ApprovalRequest, ApprovalError>)
    {
      if !IsValidAction(action) || ttl < MILLISECOND || ttl > maxTtl then (this, Err(ApprovalError.InvalidRequest))
      else if (task, operation) in index then (this, Err(DuplicateOperation))
      else if |pending| >= maxPending then (this, Err(ApprovalError.CapacityExceeded))
      else if now + ttl > MAX_INSTANT then (this, Err(ApprovalError.InvalidRequest))
      else
        var ms := DurationMs(ttl);
        (Insert(id, PendingApproval(task, operation, action, now + ttl)),
         if ms.Err? then Err(ms.error)
         else Ok(ApprovalRequest(id, task, operation, action, ms.value)))
    }

    /** `remove`, and with it `revoke`. */
    function Remove(a: ApprovalId): Authority {
      if a !in pending then this
      else this.(pending := pending - {a}, index := index - {KeyOf(a)})
    }

    function RemoveAll(ids: seq<ApprovalId>): Authority
      decreases ids
    {
      if ids == [] then this else Remove(ids[0]).RemoveAll(ids[1..])
    }

    /** `approve`, reading the clock as `now`. */
    function Approve(a: ApprovalId, now: nat): (Authority, Result<ApprovalGrant, ApprovalError>) {
      if a !in pending then (this, Err(NotFound))
      else if now >= pending[a].deadline then (this, Err(Expired))
      else
        var p := pending[a];
        (Remove(a), Ok(ApprovalGrant(a, p.task, p.operation, p.action, p.deadline)))
    }

    /** `ApprovalGrant::restore`. */
    function Restore(g: ApprovalGrant): Authority {
      Insert(g.approval, PendingApproval(g.task, g.operation, g.action, g.deadline))
    }

    /** `expired_ids`, in map order. */
    function ExpiredIds(now: nat): seq<ApprovalId> {
      Ascending(set a | a in pending && now >= pending[a].deadline)
    }
  }

  function Fresh(maxPending: nat, maxTtl: nat): Authority { Authority(map[], map[], maxPending, maxTtl) }

  /** A grant authorizes exactly its own Task, operation and action before its deadline, and then with its own
      approval; after the deadline that is the reason, whatever the scope. */
  lemma {:induction false} GrantIsScoped(g: ApprovalGrant, task: TaskId, operation: OperationId, action: string,
                                         now: nat)
    ensures var r := g.Authorize(task, operation, action, now);
            var within := task == g.task && operation == g.operation && action == g.action;
            && (r == Ok(g.approval) <==> within && now < g.deadline)
            && (r == Err(Expired) <==> g.deadline <= now) && (r == Err(ScopeMismatch) <==> now < g.deadline && !within)
  {
  }

  /******* Rollback *******/

  lemma {:induction false} InsertStaysConsistent(s: Authority, a: ApprovalId, p: PendingApproval)
    requires s.Consistent() && a !in s.pending && (p.task, p.operation) !in s.index && |s.pending| < s.maxPending
    ensures s.Insert(a, p).Consistent()
  {
    var n := s.Insert(a, p);
    assert n.pending.Keys == s.pending.Keys + {a};
    forall b | b in n.pending ensures n.KeyOf(b) in n.index && n.index[n.KeyOf(b)] == b {
      if b != a {
        assert n.KeyOf(b) == s.KeyOf(b);
      }
    }
  }

  lemma RemoveUndoesInsert(s: Authority, a: ApprovalId, p: PendingApproval)
    requires a !in s.pending && (p.task, p.operation) !in s.index
    ensures s.Insert(a, p).Remove(a) == s
  {
    var n := s.Insert(a, p);
    assert n.pending - {a} == s.pending;
    assert n.index - {(p.task, p.operation)} == s.index;
  }

  /** A request succeeds exactly under its five conditions and then inserts one entry and answers with its
      time to live in milliseconds; a failing request changes nothing. The conversion after the insertion
      cannot fail, because the constructor bounds the time to live. */
  lemma {:induction false} RequestIsAllOrNothing(
    s: Authority, task: TaskId, operation: OperationId, action: string, ttl: nat, now: nat, id: ApprovalId)
    requires IsValidConfig(s.maxPending, s.maxTtl)
    ensures var r := s.Request(task, operation, action, ttl, now, id);
            && (r.1.Ok? <==>
                && IsValidAction(action) && MILLISECOND <= ttl <= s.maxTtl
                && (task, operation) !in s.index && |s.pending| < s.maxPending && now + ttl <= MAX_INSTANT)
            && r.0 == (if r.1.Ok? then s.Insert(id, PendingApproval(task, operation, action, now + ttl)) else s)
            && (r.1.Ok? ==> r.1.value == ApprovalRequest(id, task, operation, action, ttl / 1_000_000))
  {
    if ttl <= s.maxTtl {
      assert ttl / MILLISECOND <= ttl <= U64_MAX;
    }
  }

  /** Revoking what was just requested gives back the identical maps. */
  lemma {:induction false} RevokeUndoesRequest(
    s: Authority, task: TaskId, operation: OperationId, action: string, ttl: nat, now: nat, id: ApprovalId)
    requires s.Consistent() && id !in s.pending
    ensures s.Request(task, operation, action, ttl, now, id).1.Ok? ==>
              s.Request(task, operation, action, ttl, now, id).0.Remove(id) == s
  {
    RequestIsAllOrNothing(s, task, operation, action, ttl, now, id);
    if (task, operation) !in s.index {
      RemoveUndoesInsert(s, id, PendingApproval(task, operation, action, now + ttl));
    }
  }

  /** Restoring what was just granted gives back the identical maps, deadline included. */
  lemma {:induction false} RestoreUndoesApprove(s: Authority, a: ApprovalId, now: nat)
    requires s.Consistent()
    ensures s.Approve(a, now).1.Ok? ==> s.Approve(a, now).0.Restore(s.Approve(a, now).1.value) == s
  {
    var r := s.Approve(a, now);
    if r.1.Ok? {
      var back := r.0.Restore(r.1.value);
      assert back.pending == s.pending;
      assert back.index == s.index;
    }
  }

  lemma RemoveStaysConsistent(s: Authority, a: ApprovalId)
    requires s.Consistent()
    ensures s.Remove(a).Consistent()
  {
    var n := s.Remove(a);
    if a in s.pending {
      assert n.pending.Keys == s.pending.Keys - {a};
      forall b | b in n.pending ensures n.KeyOf(b) in n.index && n.index[n.KeyOf(b)] == b {
        assert n.KeyOf(b) == s.KeyOf(b);
      }
    }
  }

  lemma {:induction false} RemoveAllRemoves(s: Authority, ids: seq<ApprovalId>)
    requires s.Consistent()
    ensures s.RemoveAll(ids).Consistent()
    ensures s.RemoveAll(ids).pending == map a | a in s.pending && a !in ids :: s.pending[a]
    decreases ids
  {
    if ids != [] {
      RemoveStaysConsistent(s, ids[0]);
      RemoveAllRemoves(s.Remove(ids[0]), ids[1..]);
      assert forall a :: a in ids <==> a == ids[0] || a in ids[1..];
    }
  }

  /** Purging keeps exactly the requests whose deadline has not passed. */
  lemma {:induction false} PurgeKeepsTheUnexpired(s: Authority, now: nat)
    requires s.Consistent()
    ensures var purged := s.RemoveAll(s.ExpiredIds(now));
            && purged.Consistent()
            && purged.pending == map a | a in s.pending && now < s.pending[a].deadline :: s.pending[a]
  {
    RemoveAllRemoves(s, s.ExpiredIds(now));
  }

  /******* The mutable authority *******/

  class ApprovalAuthority {
    var pending: map<ApprovalId, PendingApproval>
    var index: map<(TaskId, OperationId), ApprovalId>
    const maxPending: nat
    const maxTtl: nat

    ghost function View(): Authority reads this { Authority(pending, index, maxPending, maxTtl) }

    /** `ApprovalAuthority::default`; `New` validates other configurations. */
    constructor ()
      ensures View() == Fresh(DEFAULT_MAX_PENDING_APPROVALS, DEFAULT_MAX_TTL)
      ensures View().Consistent()
    {
      pending, index := map[], map[];
      maxPending, maxTtl := DEFAULT_MAX_PENDING_APPROVALS, DEFAULT_MAX_TTL;
    }

    constructor WithLimits(maxPending: nat, maxTtl: nat)
      requires IsValidConfig(maxPending, maxTtl)
      ensures View() == Fresh(maxPending, maxTtl)
      ensures View().Consistent()
    {
      pending, index := map[], map[];
      this.maxPending, this.maxTtl := maxPending, maxTtl;
    }

    static method New(maxPending: nat, maxTtl: nat) returns (r: Result<ApprovalAuthority, ApprovalError>)
      ensures r.Ok? <==> IsValidConfig(maxPending, maxTtl)
      ensures r.Ok? ==> fresh(r.value) && r.value.View() == Fresh(maxPending, maxTtl)
      ensures r.Err? ==> r.error == InvalidConfig
    {
      if maxPending == 0 || maxPending > MAX_MAX_PENDING_APPROVALS || maxTtl == 0 || maxTtl > MAX_MAX_TTL {
        return Err(InvalidConfig);
      }
      var authority := new ApprovalAuthority.WithLimits(maxPending, maxTtl);
      return Ok(authority);
    }

    method Request(task: TaskId, operation: OperationId, action: string, ttl: nat, now: nat, id: ApprovalId)
      returns (r: Result<ApprovalRequest, ApprovalError>)
      modifies this`pending, this`index
      ensures (View(), r) == old(View()).Request(task, operation, action, ttl, now, id)
    {
      if !IsValidAction(action) || ttl < MILLISECOND || ttl > maxTtl {
        return Err(ApprovalError.InvalidRequest);
      }
      if (task, operation) in index {
        return Err(DuplicateOperation);
      }
      if |pending| >= maxPending {
        return Err(ApprovalError.CapacityExceeded);
      }
      var deadline := now + ttl;
      if deadline > MAX_INSTANT {
        return Err(ApprovalError.InvalidRequest);
      }
      pending := pending[id := PendingApproval(task, operation, action, deadline)];
      index := index[(task, operation) := id];
      var ms := DurationMs(ttl);
      if ms.Err? {
        return Err(ms.error);
      }
      return Ok(ApprovalRequest(id, task, operation, action, ms.value));
    }

    method Approve(a: ApprovalId, now: nat) returns (r: Result<ApprovalGrant, ApprovalError>)
      modifies this`pending, this`index
      ensures (View(), r) == old(View()).Approve(a, now)
    {
      if a !in pending {
        return Err(NotFound);
      }
      if now >= pending[a].deadline {
        return Err(Expired);
      }
      var removed := Remove(a);
      var p := removed.value;
      return Ok(ApprovalGrant(a, p.task, p.operation, p.action, p.deadline));
    }

    method Deny(a: ApprovalId, now: nat) returns (r: Result<(), ApprovalError>)
      modifies this`pending, this`index
      ensures r.Ok? <==> old(a in pending && now < pending[a].deadline)
      ensures r.Err? ==> r.error == if a in old(pending) then Expired else NotFound
      ensures View() == if r.Ok? then old(View()).Remove(a) else old(View())
    {
      if a !in pending {
        return Err(NotFound);
      }
      if now >= pending[a].deadline {
        return Err(Expired);
      }
      var _ := Remove(a);
      return Ok(());
    }

    method Remove(a: ApprovalId) returns (r: Option<PendingApproval>)
      modifies this`pending, this`index
      ensures View() == old(View()).Remove(a)
      ensures r == if a in old(pending) then Some(old(pending)[a]) else None
    {
      if a !in pending {
        return None;
      }
      var p := pending[a];
      pending := pending - {a};
      index := index - {(p.task, p.operation)};
      return Some(p);
    }

    method Restore(g: ApprovalGrant)
      modifies this`pending, this`index
      ensures View() == old(View()).Restore(g)
    {
      pending := pending[g.approval := PendingApproval(g.task, g.operation, g.action, g.deadline)];
      index := index[(g.task, g.operation) := g.approval];
    }

    /** `pending_count`, which first purges what has expired. */
    method PendingCount(now: nat) returns (count: nat)
      modifies this`pending, this`index
      ensures View() == old(View()).RemoveAll(old(View()).ExpiredIds(now))
      ensures count == |pending|
    {
      var expired := Ascending(set a | a in pending && now >= pending[a].deadline);
      for i := 0 to |expired|
        invariant View().RemoveAll(expired[i..]) == old(View()).RemoveAll(expired)
      {
        assert expired[i..][1..] == expired[i + 1..];
        var _ := Remove(expired[i]);
      }
      count := |pending|;
    }
  }
}
