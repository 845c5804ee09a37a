/** The two event stores, crates/aios-runtime/src/event.rs and crates/aios-storage-sqlite/src/lib.rs:
    one numbers events by the length of a vector, the other by the greatest sequence in a table. Both
    refine the append-only log of `Audit`. */
module Stores {
  import opened Basics
  import opened Audit

  const I64_MAX: nat := 0x7FFF_FFFF_FFFF_FFFF

  datatype TaskEvent = TaskEvent(task: TaskId, sequence: nat, occurredAt: nat, kind: TaskEventKind)

  function Kinds(events: seq<TaskEvent>): Log { seq(|events|, i requires 0 <= i < |events| => events[i].kind) }

  /** Events of one Task, numbered from 1 without gaps. */
  ghost predicate Numbered(task: TaskId, events: seq<TaskEvent>) {
    forall i :: 0 <= i < |events| ==> events[i].task == task && events[i].sequence == i + 1
  }

  lemma KindsConcat(a: seq<TaskEvent>, b: seq<TaskEvent>)
    ensures Kinds(a + b) == Kinds(a) + Kinds(b)
  {
  }

  type EventMap = map<TaskId, seq<TaskEvent>>

  function EventsOf(all: EventMap, task: TaskId): seq<TaskEvent> { if task in all then all[task] else [] }

  /** The batch as events that follow `existing` earlier ones. */
  function Numbering(task: TaskId, existing: nat, kinds: Log, times: seq<nat>): seq<TaskEvent>
    requires |times| == |kinds|
  {
    seq(|kinds|, i requires 0 <= i < |kinds| => TaskEvent(task, existing + i + 1, times[i], kinds[i]))
  }

  /** What `append_batch` promises: the whole batch, numbered on from the last event, or nothing. */
  function Record(all: EventMap, capacity: nat, task: TaskId, kinds: Log, times: seq<nat>)
    : (EventMap, Result<seq<TaskEvent>, EventStoreError>)
    requires |times| == |kinds|
  {
    if kinds == [] then (all, Ok([]))
    else if |EventsOf(all, task)| + |kinds| > capacity then (all, Err(EventStoreError.CapacityExceeded))
    else
      var events := Numbering(task, |EventsOf(all, task)|, kinds, times);
      (all[task := EventsOf(all, task) + events], Ok(events))
  }

  /** What `list` promises: the suffix after the cursor. */
  function Suffix(events: seq<TaskEvent>, after: nat): seq<TaskEvent> {
    if after <= |events| then events[after..] else []
  }

  ghost predicate AllNumbered(all: EventMap, capacity: nat) {
    forall t :: t in all ==> Numbered(t, all[t]) && 0 < |all[t]| <= capacity
  }

  /** The log that the supervisor's model sees. */
  function LogsOf(all: EventMap): map<TaskId, Log> { map t | t in all :: Kinds(all[t]) }

  /** Recording keeps every log numbered from 1 without gaps and within the limit, and is the append of
      the audit log when event numbers and times are left out. */
  lemma {:induction false} RecordRefinesAppend(all: EventMap, capacity: nat, task: TaskId, kinds: Log, times: seq<nat>)
    requires AllNumbered(all, capacity) && |times| == |kinds|
    ensures AllNumbered(Record(all, capacity, task, kinds, times).0, capacity)
    ensures var (after, r) := Record(all, capacity, task, kinds, times);
            AuditLog(LogsOf(all), capacity, []).Append(task, kinds)
            == (AuditLog(LogsOf(after), capacity, []), if r.Err? then Some(r.error) else None)
  {
    var (after, r) := Record(all, capacity, task, kinds, times);
    if kinds != [] && r.Ok? {
      KindsConcat(EventsOf(all, task), r.value);
      assert Kinds(r.value) == kinds;
      assert LogsOf(after) == LogsOf(all)[task := Kinds(EventsOf(all, task)) + kinds];
    }
  }

  /** Events with a sequence greater than `after`. */
  function Newer(events: seq<TaskEvent>, after: nat): seq<TaskEvent> {
    if events == [] then []
    else (if events[0].sequence > after then [events[0]] else []) + Newer(events[1..], after)
  }

  /** In a numbered log that is the exact suffix. */
  lemma {:induction false} NewerIsSuffix(events: seq<TaskEvent>, after: nat, first: nat)
    requires forall i :: 0 <= i < |events| ==> events[i].sequence == first + i
    ensures Newer(events, after) == if after < first then events else Suffix(events, after - first + 1)
    decreases events
  {
    if events != [] {
      NewerIsSuffix(events[1..], after, first + 1);
    }
  }

  /******* In memory *******/

  class InMemoryEventStore {
    var events: EventMap
    const maxEvents: nat

    ghost predicate Valid()
      reads this
    {
      maxEvents <= U64_MAX && AllNumbered(events, maxEvents)
    }

    /** `maxEvents` is a machine-sized limit; `new` refuses zero. */
    constructor (maxEvents: nat)
      requires 0 < maxEvents <= U64_MAX
      ensures Valid() && events == map[] && this.maxEvents == maxEvents
    {
      events := map[];
      this.maxEvents := maxEvents;
    }

    /** `new`. */
    static method New(maxEvents: nat) returns (r: Result<InMemoryEventStore, EventStoreError>)
      requires maxEvents <= U64_MAX
      ensures if maxEvents == 0 then r == Err(EventStoreError.CapacityExceeded)
              else
                && r.Ok? && fresh(r.value) && r.value.Valid()
                && r.value.events == map[] && r.value.maxEvents == maxEvents
    {
      if maxEvents == 0 {
        return Err(EventStoreError.CapacityExceeded);
      }
      var store := new InMemoryEventStore(maxEvents);
      return Ok(store);
    }

    /** `append_batch`, reading the clock as `times`. The machine-width checks never fail here. */
    method AppendBatch(task: TaskId, kinds: Log, times: seq<nat>) returns (r: Result<seq<TaskEvent>, EventStoreError>)
      requires Valid() && |times| == |kinds|
      modifies this
      ensures Valid()
      ensures (events, r) == Record(old(events), maxEvents, task, kinds, times)
    {
      RecordRefinesAppend(events, maxEvents, task, kinds, times);
      if kinds == [] {
        return Ok([]);
      }
      var existing := if task in events then |events[task]| else 0;
      if existing + |kinds| > maxEvents {
        return Err(EventStoreError.CapacityExceeded);
      }
      if existing + 1 > U64_MAX {
        return Err(SequenceExhausted);
      }
      var appended: seq<TaskEvent> := [];
      for offset := 0 to |kinds|
        invariant appended == Numbering(task, existing, kinds, times)[..offset]
      {
        var sequence := existing + 1 + offset;
        if sequence > U64_MAX || sequence == 0 {
          return Err(SequenceExhausted);
        }
        appended := appended + [TaskEvent(task, sequence, times[offset], kinds[offset])];
      }
      assert appended == Numbering(task, existing, kinds, times);
      events := events[task := (if task in events then events[task] else []) + appended];
      return Ok(appended);
    }

    method List(task: TaskId, after: nat) returns (r: Result<seq<TaskEvent>, EventStoreError>)
      requires Valid()
      ensures r == Ok(Suffix(EventsOf(events, task), after))
    {
      if task !in events {
        return Ok([]);
      }
      NewerIsSuffix(events[task], after, 1);
      return Ok(Newer(events[task], after));
    }
  }

  /******* In a table *******/

  datatype Row = Row(occurredAt: nat, kind: TaskEventKind)

  type Table = map<(TaskId, nat), Row>

  /** The sequences stored for a Task. */
  function Sequences(rows: Table, task: TaskId): set<nat> { set k | k in rows && k.0 == task :: k.1 }

  function Interval(low: nat, high: nat): (s: set<nat>)
    requires low <= high
    ensures forall x :: x in s <==> low < x <= high
    ensures |s| == high - low
    decreases high
  {
    if low == high then {} else Interval(low, high - 1) + {high}
  }

  /** `COALESCE(MAX(sequence), 0)`. */
  function Greatest(s: set<nat>): (m: nat)
    ensures s != {} ==> m in s && forall x :: x in s ==> x <= m
    ensures s == {} ==> m == 0
  {
    if s == {} then 0 else
    var xs := Ascending(s);
    assert s == set x | x in xs;
    xs[|xs| - 1]
  }

  /** An interval read in ascending order. */
  lemma {:induction false} AscendingInterval(xs: seq<nat>, low: nat, high: nat)
    requires low <= high && Increasing(xs) && forall x :: x in xs <==> low < x <= high
    ensures |xs| == high - low && forall i :: 0 <= i < |xs| ==> xs[i] == low + 1 + i
    decreases high - low
  {
    assert xs == [] || xs[0] in xs;
    if low < high {
      assert low + 1 in xs && xs[0] == low + 1;
      forall x ensures x in xs[1..] <==> low + 1 < x <= high {
        assert x in xs <==> low < x <= high;
      }
      AscendingInterval(xs[1..], low + 1, high);
    }
  }

  class SqliteEventStore {
    var rows: Table
    const maxEvents: nat

    /** Each Task's sequences are 1, 2, 3 and so on, within both limits. */
    ghost predicate Valid()
      reads this
    {
      forall t :: Dense(rows, t, maxEvents)
    }

    constructor (maxEvents: nat)
      requires 0 < maxEvents <= U64_MAX
      ensures Valid() && rows == map[] && this.maxEvents == maxEvents
    {
      rows := map[];
      this.maxEvents := maxEvents;
    }

    /** `append_batch`, reading the clock as `times`. `fault` says that some statement of the
        transaction fails, which rolls it back. */
    method AppendBatch(task: TaskId, kinds: Log, times: seq<nat>, fault: bool)
      returns (r: Result<seq<TaskEvent>, EventStoreError>)
      requires Valid() && |times| == |kinds|
      modifies this
      ensures Valid()
      ensures var existing := |Sequences(old(rows), task)|;
              if kinds == [] then r == Ok([]) && rows == old(rows)
              else if fault then r == Err(Unavailable) && rows == old(rows)
              else if existing + |kinds| > maxEvents then r == Err(EventStoreError.CapacityExceeded)
                && rows == old(rows)
              else if existing + |kinds| > I64_MAX || exists i :: 0 <= i < |times| && times[i] > I64_MAX then
                r == Err(SequenceExhausted) && rows == old(rows)
              else
                r == Ok(Numbering(task, existing, kinds, times))
                  && rows == Inserted(old(rows), task, existing, kinds, times)
    {
      if kinds == [] {
        return Ok([]);
      }
      if fault {
        return Err(Unavailable);
      }
      CountIsGreatest(rows, task, maxEvents);
      hide Dense, Greatest, Sequences;
      var existing, last := |Sequences(rows, task)|, Greatest(Sequences(rows, task));
      if existing + |kinds| > maxEvents {
        return Err(EventStoreError.CapacityExceeded);
      }
      var inserted := InsertRows(rows, task, last, kinds, times);
      if inserted.None? {
        return Err(SequenceExhausted);
      }
      InsertedStaysDense(rows, task, kinds, times, maxEvents);
      rows := inserted.value.0;
      return Ok(inserted.value.1);
    }

    /** The insertions of one transaction. */
    method InsertRows(before: Table, task: TaskId, last: nat, kinds: Log, times: seq<nat>)
      returns (r: Option<(Table, seq<TaskEvent>)>)
      requires |times| == |kinds| > 0
      ensures r.None? <==> last + |kinds| > I64_MAX || exists i :: 0 <= i < |times| && times[i] > I64_MAX
      ensures r.Some? ==> r.value == (Inserted(before, task, last, kinds, times), Numbering(task, last, kinds, times))
    {
      var table, appended := before, [];
      for offset := 0 to |kinds|
        invariant appended == Numbering(task, last, kinds, times)[..offset]
        invariant table == Inserted(before, task, last, kinds[..offset], times[..offset])
        invariant (offset > 0 ==> last + offset <= I64_MAX) && forall i :: 0 <= i < offset ==> times[i] <= I64_MAX
      {
        var sequence := last + 1 + offset;
        if sequence > I64_MAX || times[offset] > I64_MAX {
          return None;
        }
        assert kinds[..offset + 1][..offset] == kinds[..offset] && times[..offset + 1][..offset] == times[..offset];
        table := table[(task, sequence) := Row(times[offset], kinds[offset])];
        appended := appended + [TaskEvent(task, sequence, times[offset], kinds[offset])];
      }
      assert kinds[..|kinds|] == kinds && times[..|times|] == times;
      assert appended == Numbering(task, last, kinds, times);
      return Some((table, appended));
    }

    /** `list`; `fault` says that the query fails. */
    method List(task: TaskId, after: nat, fault: bool) returns (r: Result<seq<TaskEvent>, EventStoreError>)
      requires Valid()
      ensures Contiguous(rows, task)
      ensures r == if after > I64_MAX then Err(SequenceExhausted)
                   else if fault then Err(Unavailable)
                   else Ok(Suffix(EventList(rows, task), after))
    {
      assert Dense(rows, task, maxEvents);
      hide Dense;
      if after > I64_MAX {
        return Err(SequenceExhausted);
      }
      if fault {
        return Err(Unavailable);
      }
      var sequences := Ascending(set s | s in Sequences(rows, task) && s > after);
      LaterSequences(rows, task, after, sequences);
      hide Sequences, Contiguous, EventList;
      var events := ReadRows(task, sequences);
      assert events == Suffix(EventList(rows, task), after);
      return Ok(events);
    }

    /** The rows of a query result as events. */
    method ReadRows(task: TaskId, sequences: seq<nat>) returns (events: seq<TaskEvent>)
      requires forall i :: 0 <= i < |sequences| ==> (task, sequences[i]) in rows
      ensures |events| == |sequences|
      ensures forall i :: 0 <= i < |events| ==>
                            events[i] == TaskEvent(task, sequences[i], rows[(task, sequences[i])].occurredAt,
                              rows[(task, sequences[i])].kind)
    {
      events := [];
      for i := 0 to |sequences|
        invariant |events| == i
        invariant forall k :: 0 <= k < i ==>
                    events[k] == TaskEvent(task, sequences[k], rows[(task, sequences[k])].occurredAt,
                      rows[(task, sequences[k])].kind)
      {
        var row := rows[(task, sequences[i])];
        events := events + [TaskEvent(task, sequences[i], row.occurredAt, row.kind)];
      }
    }
  }

  /** The sequences of a Task are exactly 1 to their number, and within the limits. */
  ghost predicate Dense(rows: Table, task: TaskId, capacity: nat) {
    |Sequences(rows, task)| <= capacity && |Sequences(rows, task)| <= I64_MAX && Contiguous(rows, task)
  }

  ghost predicate Contiguous(rows: Table, task: TaskId) {
    Sequences(rows, task) == Interval(0, |Sequences(rows, task)|)
  }

  /** The rows of a Task in sequence order. */
  ghost function EventList(rows: Table, task: TaskId): seq<TaskEvent>
    requires Contiguous(rows, task)
  {
    seq(|Sequences(rows, task)|, i requires 0 <= i < |Sequences(rows, task)| =>
      assert i + 1 in Sequences(rows, task);
      TaskEvent(task, i + 1, rows[(task, i + 1)].occurredAt, rows[(task, i + 1)].kind))
  }

  /** The table with the batch inserted after `existing` rows of the Task. */
  function Inserted(rows: Table, task: TaskId, existing: nat, kinds: Log, times: seq<nat>): Table
    requires |times| == |kinds|
    decreases kinds
  {
    if kinds == [] then rows
    else
      var k := |kinds| - 1;
      Inserted(rows, task, existing, kinds[..k], times[..k])[(task, existing + |kinds|) := Row(times[k], kinds[k])]
  }

  lemma SequencesAfterInsert(rows: Table, task: TaskId, sequence: nat, row: Row, t: TaskId)
    ensures Sequences(rows[(task, sequence) := row], t)
            == if t == task then Sequences(rows, t) + {sequence} else Sequences(rows, t)
  {
    var after := rows[(task, sequence) := row];
    forall x ensures x in Sequences(after, t) <==> (t == task && x == sequence) || x in Sequences(rows, t) {
      assert x in Sequences(after, t) <==> (t, x) in after;
      assert x in Sequences(rows, t) <==> (t, x) in rows;
    }
  }

  lemma {:induction false} InsertedSequences(rows: Table, task: TaskId, kinds: Log, times: seq<nat>, t: TaskId)
    requires |times| == |kinds| && Contiguous(rows, task)
    ensures var n := |Sequences(rows, task)|;
            Sequences(Inserted(rows, task, n, kinds, times), t)
            == if t == task then Interval(0, n + |kinds|) else Sequences(rows, t)
    decreases kinds
  {
    if kinds != [] {
      var k, n := |kinds| - 1, |Sequences(rows, task)|;
      InsertedSequences(rows, task, kinds[..k], times[..k], t);
      SequencesAfterInsert(Inserted(rows, task, n, kinds[..k], times[..k]), task, n + |kinds|, Row(times[k], kinds[k]),
        t);
    }
  }

  lemma InsertedStaysDense(rows: Table, task: TaskId, kinds: Log, times: seq<nat>, capacity: nat)
    requires |times| == |kinds| && forall t :: Dense(rows, t, capacity)
    requires |Sequences(rows, task)| + |kinds| <= capacity && |Sequences(rows, task)| + |kinds| <= I64_MAX
    ensures forall t :: Dense(Inserted(rows, task, |Sequences(rows, task)|, kinds, times), t, capacity)
  {
    var after := Inserted(rows, task, |Sequences(rows, task)|, kinds, times);
    forall t ensures Dense(after, t, capacity) {
      assert Dense(rows, t, capacity) && Dense(rows, task, capacity);
      InsertedSequences(rows, task, kinds, times, t);
    }
  }

  lemma CountIsGreatest(rows: Table, task: TaskId, capacity: nat)
    requires Dense(rows, task, capacity)
    ensures Greatest(Sequences(rows, task)) == |Sequences(rows, task)|
  {
    hide Sequences, Interval;
    var n := |Sequences(rows, task)|;
    assert n > 0 ==> n in Interval(0, n);
  }

  /** The query for later rows yields the suffix, in order. */
  lemma LaterSequences(rows: Table, task: TaskId, after: nat, sequences: seq<nat>)
    requires Contiguous(rows, task) && Increasing(sequences)
    requires forall s :: s in sequences <==> s in Sequences(rows, task) && s > after
    ensures |sequences| == |Suffix(EventList(rows, task), after)|
    ensures forall i :: 0 <= i < |sequences| ==>
                          && (task, sequences[i]) in rows
                          && var row := rows[(task, sequences[i])];
                             Suffix(EventList(rows, task), after)[i]
                               == TaskEvent(task, sequences[i], row.occurredAt, row.kind)
  {
    var n := |Sequences(rows, task)|;
    var low := if after <= n then after else n;
    assert forall s :: s in Sequences(rows, task) <==> 0 < s <= n;
    forall i | 0 <= i < |sequences| ensures (task, sequences[i]) in rows {
      assert sequences[i] in sequences;
    }
    hide Sequences, Contiguous;
    AscendingInterval(sequences, low, n);
  }

  /******* Both stores are one log *******/

  /** Inserting a batch extends the Task's rows, read in order, by the numbered batch. */
  lemma {:induction false} InsertedEvents(rows: Table, task: TaskId, kinds: Log, times: seq<nat>, t: TaskId)
    requires |times| == |kinds| && Contiguous(rows, task) && Contiguous(rows, t)
    ensures var n := |Sequences(rows, task)|;
            var after := Inserted(rows, task, n, kinds, times);
            && Contiguous(after, t)
            && EventList(after, t) == if t == task then EventList(rows, t) + Numbering(task, n, kinds, times)
               else EventList(rows, t)
    decreases kinds
  {
    hide Sequences, Interval, EventList, Contiguous;
    if kinds != [] {
      var k, n := |kinds| - 1, |Sequences(rows, task)|;
      var before := Inserted(rows, task, n, kinds[..k], times[..k]);
      InsertedEvents(rows, task, kinds[..k], times[..k], t);
      InsertedEvents(rows, task, kinds[..k], times[..k], task);
      InsertedSequences(rows, task, kinds[..k], times[..k], task);
      NextRow(before, task, Row(times[k], kinds[k]), t);
      assert Numbering(task, n, kinds, times)
          == Numbering(task, n, kinds[..k], times[..k]) + [TaskEvent(task, n + |kinds|, times[k], kinds[k])];
    }
  }

  /** One more row at the end of one Task's rows. */
  lemma NextRow(rows: Table, task: TaskId, row: Row, t: TaskId)
    requires Contiguous(rows, task) && Contiguous(rows, t)
    ensures var next := |Sequences(rows, task)| + 1;
            var after := rows[(task, next) := row];
            && Contiguous(after, t)
            && EventList(after, t) == EventList(rows, t) + if t == task
               then [TaskEvent(task, next, row.occurredAt, row.kind)] else []
  {
    hide Sequences, Contiguous, Interval;
    NextSequences(rows, task, row, t);
    RowsOf(rows, t);
  }

  lemma NextSequences(rows: Table, task: TaskId, row: Row, t: TaskId)
    requires Contiguous(rows, task) && Contiguous(rows, t)
    ensures var after := rows[(task, |Sequences(rows, task)| + 1) := row];
            Contiguous(after, t) && |Sequences(after, t)| == |Sequences(rows, t)| + if t == task then 1 else 0
  {
    var n := |Sequences(rows, task)|;
    SequencesAfterInsert(rows, task, n + 1, row, t);
    hide Sequences;
    if t == task {
      assert Interval(0, n) + {n + 1} == Interval(0, n + 1);
    }
  }

  lemma RowsOf(rows: Table, t: TaskId)
    requires Contiguous(rows, t)
    ensures forall s :: 0 < s <= |Sequences(rows, t)| ==> (t, s) in rows
  {
    forall s | 0 < s <= |Sequences(rows, t)| ensures (t, s) in rows {
      assert s in Sequences(rows, t);
    }
  }

  datatype Batch = Batch(task: TaskId, kinds: Log, times: seq<nat>)

  /** A batch with one clock reading per event, before the end of the signed range. */
  predicate Timed(b: Batch) {
    |b.times| == |b.kinds| && forall i :: 0 <= i < |b.times| ==> b.times[i] <= I64_MAX
  }

  /** All batches recorded in order, with the answer to each. */
  function RecordAll(capacity: nat, batches: seq<Batch>): (EventMap, seq<Result<seq<TaskEvent>, EventStoreError>>)
    requires forall i :: 0 <= i < |batches| ==> Timed(batches[i])
  {
    if batches == [] then (map[], [])
    else
      var k := |batches| - 1;
      var (all, answers) := RecordAll(capacity, batches[..k]);
      assert Timed(batches[k]);
      var (next, r) := Record(all, capacity, batches[k].task, batches[k].kinds, batches[k].times);
      (next, answers + [r])
  }

  type Answers = seq<Result<seq<TaskEvent>, EventStoreError>>

  ghost predicate SameEvents(rows: Table, all: EventMap) {
    forall t :: Contiguous(rows, t) && EventList(rows, t) == EventsOf(all, t)
  }

  lemma InsertedSame(rows: Table, all: EventMap, task: TaskId, kinds: Log, times: seq<nat>)
    requires |times| == |kinds| && SameEvents(rows, all)
    ensures |Sequences(rows, task)| == |EventsOf(all, task)|
    ensures var n := |Sequences(rows, task)|;
            SameEvents(Inserted(rows, task, n, kinds, times),
              all[task := EventsOf(all, task) + Numbering(task, n, kinds, times)])
  {
    assert Contiguous(rows, task) && |EventList(rows, task)| == |Sequences(rows, task)|;
    var n := |Sequences(rows, task)|;
    var after, more := Inserted(rows, task, n, kinds, times),
      all[task := EventsOf(all, task) + Numbering(task, n, kinds, times)];
    forall t ensures Contiguous(after, t) && EventList(after, t) == EventsOf(more, t) {
      assert Contiguous(rows, t);
      InsertedEvents(rows, task, kinds, times, t);
    }
  }

  /** From empty, without backend faults, both stores accept and refuse the same batches, number them
      alike and list the same suffixes, for every sequence of batches and every cursor in the signed
      range. */
  method DriveBoth(maxEvents: nat, batches: seq<Batch>, task: TaskId, after: nat)
    returns (vector: Answers, table: Answers, fromVector: seq<TaskEvent>, fromTable: seq<TaskEvent>)
    requires 0 < maxEvents <= I64_MAX && after <= I64_MAX
    requires forall i :: 0 <= i < |batches| ==> Timed(batches[i])
    ensures vector == table == RecordAll(maxEvents, batches).1
    ensures fromVector == fromTable == Suffix(EventsOf(RecordAll(maxEvents, batches).0, task), after)
  {
    var memory := new InMemoryEventStore(maxEvents);
    var sqlite := new SqliteEventStore(maxEvents);
    vector, table := [], [];
    for i := 0 to |batches|
      invariant memory.Valid() && sqlite.Valid() && fresh(memory) && fresh(sqlite)
      invariant memory.maxEvents == maxEvents == sqlite.maxEvents
      invariant (memory.events, vector) == RecordAll(maxEvents, batches[..i]) && table == vector
      invariant SameEvents(sqlite.rows, memory.events)
    {
      var b := batches[i];
      assert batches[..i + 1][..i] == batches[..i];
      InsertedSame(sqlite.rows, memory.events, b.task, b.kinds, b.times);
      hide SameEvents, Inserted;
      var r := memory.AppendBatch(b.task, b.kinds, b.times);
      var q := sqlite.AppendBatch(b.task, b.kinds, b.times, false);
      vector, table := vector + [r], table + [q];
    }
    assert batches[..|batches|] == batches;
    var l := memory.List(task, after);
    var m := sqlite.List(task, after, false);
    fromVector, fromTable := l.value, m.value;
  }
}
