/** The system-call filter: crates/aios-adapter-process/src/seccomp.rs. A policy is compiled to classic
    BPF instructions, those to bytes, and the bytes are interpreted. */
module Seccomp {
  import opened Words

  const AUDIT_ARCH_X86_64: u32 := 0xC000_003E
  const X32_SYSCALL_BIT: u32 := 0x4000_0000
  const MAX_REVIEWED_SYSCALL: u32 := 470

  const LD_W_ABS: u16 := 0x20
  const JMP_JEQ_K: u16 := 0x15
  const JMP_JGE_K: u16 := 0x35
  const JMP_JGT_K: u16 := 0x25
  const RET_K: u16 := 0x06

  const NR_OFFSET: u32 := 0
  const ARCH_OFFSET: u32 := 4
  const RET_KILL_PROCESS: u32 := 0x8000_0000
  const RET_ALLOW: u32 := 0x7FFF_0000

  const BLOCKED_SYSCALLS: seq<u32> :=
    [101, 103, 135, 153, 155, 163, 164, 165, 166, 167, 168, 169, 172, 173, 175, 176, 179, 212, 227, 246,
     248, 249, 250, 272, 298, 300, 303, 304, 305, 308, 310, 311, 312, 313, 320, 321, 323, 425, 426, 427,
     428, 429, 430, 431, 432, 433, 438, 440, 442, 443, 447, 448, 457, 458, 460, 461, 467, 468, 469, 470]

  datatype FilterInstruction = FilterInstruction(code: u16, jumpTrue: u8, jumpFalse: u8, value: u32)

  function Statement(code: u16, value: u32): FilterInstruction { FilterInstruction(code, 0, 0, value) }

  function Jump(code: u16, value: u32, jumpTrue: u8, jumpFalse: u8): FilterInstruction {
    FilterInstruction(code, jumpTrue, jumpFalse, value)
  }

  /******* Instructions as bytes *******/

  function Encode(i: FilterInstruction, order: ByteOrder): (b: seq<u8>)
    ensures |b| == 8
  {
    Bytes2(i.code, order) + [i.jumpTrue, i.jumpFalse] + Bytes4(i.value, order)
  }

  /** `instruction`: the instruction at an index of the byte stream. */
  function Decode(bytes: seq<u8>, index: nat, order: ByteOrder): FilterInstruction
    requires 8 * index + 8 <= |bytes|
  {
    var b := bytes[8 * index..8 * index + 8];
    FilterInstruction(Word2(b[..2], order), b[2], b[3], Word4(b[4..], order))
  }

  function EncodeAll(program: seq<FilterInstruction>, order: ByteOrder): (b: seq<u8>)
    ensures |b| == 8 * |program|
  {
    if program == [] then []
    else EncodeAll(program[..|program| - 1], order) + Encode(program[|program| - 1], order)
  }

  lemma DecodeEncode(i: FilterInstruction, order: ByteOrder)
    ensures Decode(Encode(i, order), 0, order) == i
  {
    var b := Encode(i, order);
    assert b[0..8][..2] == Bytes2(i.code, order) && b[0..8][4..] == Bytes4(i.value, order);
  }

  /** The layout of `struct sock_filter`: code, two jumps, value. */
  lemma {:induction false} KnownInstruction()
    ensures Encode(Jump(JMP_JEQ_K, AUDIT_ARCH_X86_64, 1, 2), Little) == [0x15, 0, 1, 2, 0x3E, 0, 0, 0xC0]
    ensures Encode(Jump(JMP_JEQ_K, AUDIT_ARCH_X86_64, 1, 2), Big) == [0, 0x15, 1, 2, 0xC0, 0, 0, 0x3E]
  {
  }

  /** Decoding any index of an encoded program gives back its instruction. */
  lemma {:induction false} DecodeAt(program: seq<FilterInstruction>, index: nat, order: ByteOrder)
    requires index < |program|
    ensures Decode(EncodeAll(program, order), index, order) == program[index]
  {
    var k := |program| - 1;
    var front, last := EncodeAll(program[..k], order), Encode(program[k], order);
    if index == k {
      assert (front + last)[8 * k..8 * k + 8] == last[0..8];
      DecodeEncode(program[k], order);
    } else {
      assert (front + last)[8 * index..8 * index + 8] == front[8 * index..8 * index + 8];
      DecodeAt(program[..k], index, order);
    }
  }

  /******* The compiler *******/

  function Prologue(highest: u32): seq<FilterInstruction> {
    [Statement(LD_W_ABS, ARCH_OFFSET),
     Jump(JMP_JEQ_K, AUDIT_ARCH_X86_64, 1, 0),
     Statement(RET_K, RET_KILL_PROCESS),
     Statement(LD_W_ABS, NR_OFFSET),
     Jump(JMP_JGE_K, X32_SYSCALL_BIT, 0, 1),
     Statement(RET_K, RET_KILL_PROCESS),
     Jump(JMP_JGT_K, highest, 0, 1),
     Statement(RET_K, RET_KILL_PROCESS)]
  }

  function Checks(table: seq<u32>): (p: seq<FilterInstruction>)
    ensures |p| == 2 * |table|
    ensures forall i :: 0 <= i < |table| ==>
                          p[2 * i] == Jump(JMP_JEQ_K, table[i], 0, 1)
                            && p[2 * i + 1] == Statement(RET_K, RET_KILL_PROCESS)
  {
    if table == [] then []
    else
      var k := |table| - 1;
      Checks(table[..k]) + [Jump(JMP_JEQ_K, table[k], 0, 1), Statement(RET_K, RET_KILL_PROCESS)]
  }

  function Program(table: seq<u32>, highest: u32): seq<FilterInstruction> {
    Prologue(highest) + Checks(table) + [Statement(RET_K, RET_ALLOW)]
  }

  /** The instruction vector of `default_filter_bytes`, for any table of blocked numbers and any
      highest reviewed one. */
  method Instructions(table: seq<u32>, highest: u32) returns (instructions: seq<FilterInstruction>)
    ensures instructions == Program(table, highest)
  {
    instructions := [
      Statement(LD_W_ABS, ARCH_OFFSET),
      Jump(JMP_JEQ_K, AUDIT_ARCH_X86_64, 1, 0),
      Statement(RET_K, RET_KILL_PROCESS),
      Statement(LD_W_ABS, NR_OFFSET),
      Jump(JMP_JGE_K, X32_SYSCALL_BIT, 0, 1),
      Statement(RET_K, RET_KILL_PROCESS),
      Jump(JMP_JGT_K, highest, 0, 1),
      Statement(RET_K, RET_KILL_PROCESS)];
    assert instructions == Prologue(highest);
    hide Prologue;
    for i := 0 to |table|
      invariant instructions == Prologue(highest) + Checks(table[..i])
    {
      assert table[..i + 1][..i] == table[..i];
      instructions := instructions + [Jump(JMP_JEQ_K, table[i], 0, 1), Statement(RET_K, RET_KILL_PROCESS)];
    }
    assert table[..|table|] == table;
    instructions := instructions + [Statement(RET_K, RET_ALLOW)];
  }

  /** `default_filter_bytes`. */
  method FilterBytes(table: seq<u32>, highest: u32, order: ByteOrder) returns (bytes: seq<u8>)
    ensures bytes == EncodeAll(Program(table, highest), order)
  {
    var instructions := Instructions(table, highest);
    hide Program, Encode;
    bytes := [];
    for i := 0 to |instructions|
      invariant bytes == EncodeAll(instructions[..i], order)
    {
      assert instructions[..i + 1][..i] == instructions[..i];
      bytes := bytes + Encode(instructions[i], order);
    }
    assert instructions[..|instructions|] == instructions;
  }

  /******* The interpreter *******/

  /** Where interpretation ends: with a value, or by leaving the program or its language. */
  datatype Verdict = Returned(value: u32) | Panicked

  datatype Next = Continue(pc: nat, accumulator: u32) | Stop(verdict: Verdict)

  /** One instruction. Program counters only grow. */
  function Execute(i: FilterInstruction, pc: nat, accumulator: u32, architecture: u32, syscall: u32): (n: Next)
    ensures n.Continue? ==> n.pc > pc
  {
    if i.code == LD_W_ABS then
      if i.value == NR_OFFSET then Continue(pc + 1, syscall)
      else if i.value == ARCH_OFFSET then Continue(pc + 1, architecture)
      else Stop(Panicked)
    else if i.code == JMP_JEQ_K then Continue(pc + (if accumulator == i.value then i.jumpTrue else i.jumpFalse) + 1,
      accumulator)
    else if i.code == JMP_JGE_K then Continue(pc + (if accumulator >= i.value then i.jumpTrue else i.jumpFalse) + 1,
      accumulator)
    else if i.code == JMP_JGT_K then Continue(pc + (if accumulator > i.value then i.jumpTrue else i.jumpFalse) + 1,
      accumulator)
    else if i.code == RET_K then Stop(Returned(i.value))
    else Stop(Panicked)
  }

  /** The meaning of a program from a program counter on. */
  function Interpret(program: seq<FilterInstruction>, pc: nat, accumulator: u32, architecture: u32,
                     syscall: u32): Verdict
    decreases |program| - pc
  {
    if pc >= |program| then Panicked
    else
      match Execute(program[pc], pc, accumulator, architecture, syscall)
      case Stop(verdict) => verdict
      case Continue(next, value) =>
        if next >= |program| then Panicked else Interpret(program, next, value, architecture, syscall)
  }

  /** The instructions of a byte stream, without a trailing part of fewer than eight bytes. */
  function DecodeAll(bytes: seq<u8>, order: ByteOrder): seq<FilterInstruction> {
    seq(|bytes| / 8, i requires 0 <= i < |bytes| / 8 => Decode(bytes, i, order))
  }

  /** `evaluate`: the interpreter's loop terminates on every byte stream and computes the meaning of the
      decoded program. */
  method Evaluate(bytes: seq<u8>, architecture: u32, syscall: u32, order: ByteOrder) returns (verdict: Verdict)
    ensures verdict == Interpret(DecodeAll(bytes, order), 0, 0, architecture, syscall)
  {
    var accumulator: u32 := 0;
    var pc: nat := 0;
    while 8 * pc + 8 <= |bytes|
      invariant Interpret(DecodeAll(bytes, order), pc, accumulator, architecture, syscall)
             == Interpret(DecodeAll(bytes, order), 0, 0, architecture, syscall)
      decreases |bytes| - pc
    {
      var i := Decode(bytes, pc, order);
      match Execute(i, pc, accumulator, architecture, syscall)
      case Stop(value) => return value;
      case Continue(next, value) => pc, accumulator := next, value;
    }
    return Panicked;
  }

  /******* The compiled bytes mean the policy *******/

  predicate Allowed(table: seq<u32>, highest: u32, architecture: u32, syscall: u32) {
    architecture == AUDIT_ARCH_X86_64 && syscall < X32_SYSCALL_BIT && syscall <= highest && syscall !in table
  }

  lemma DecodeAllEncodeAll(program: seq<FilterInstruction>, order: ByteOrder)
    ensures DecodeAll(EncodeAll(program, order), order) == program
  {
    forall i | 0 <= i < |program| ensures Decode(EncodeAll(program, order), i, order) == program[i] {
      DecodeAt(program, i, order);
    }
  }

  lemma {:induction false} ChecksMean(table: seq<u32>, highest: u32, k: nat, architecture: u32, syscall: u32)
    requires k <= |table|
    ensures Interpret(Program(table, highest), 8 + 2 * k, syscall, architecture, syscall)
            == Returned(if syscall in table[k..] then RET_KILL_PROCESS else RET_ALLOW)
    decreases |table| - k
  {
    var p := Program(table, highest);
    if k < |table| {
      assert p[8 + 2 * k] == Checks(table)[2 * k] && p[8 + 2 * k + 1] == Checks(table)[2 * k + 1];
      assert table[k..] == [table[k]] + table[k + 1..];
      if syscall == table[k] {
        assert Interpret(p, 8 + 2 * k + 1, syscall, architecture, syscall) == Returned(RET_KILL_PROCESS);
      } else {
        ChecksMean(table, highest, k + 1, architecture, syscall);
      }
    } else {
      assert p[8 + 2 * k] == Statement(RET_K, RET_ALLOW);
    }
  }

  lemma PrologueMeans(table: seq<u32>, highest: u32, architecture: u32, syscall: u32)
    ensures Interpret(Program(table, highest), 0, 0, architecture, syscall)
            == if architecture != AUDIT_ARCH_X86_64 || syscall >= X32_SYSCALL_BIT || syscall > highest then
                 Returned(RET_KILL_PROCESS)
               else Interpret(Program(table, highest), 8, syscall, architecture, syscall)
  {
    var p := Program(table, highest);
    assert forall i :: 0 <= i < 8 ==> p[i] == Prologue(highest)[i];
    assert Interpret(p, 2, architecture, architecture, syscall) == Returned(RET_KILL_PROCESS);
    assert Interpret(p, 5, syscall, architecture, syscall) == Returned(RET_KILL_PROCESS);
    assert Interpret(p, 7, syscall, architecture, syscall) == Returned(RET_KILL_PROCESS);
    var six := Interpret(p, 6, syscall, architecture, syscall);
    assert six == Interpret(p, if syscall > highest then 7 else 8, syscall, architecture, syscall);
    assert Interpret(p, 4, syscall, architecture, syscall) == if syscall >= X32_SYSCALL_BIT
           then Returned(RET_KILL_PROCESS) else six;
    assert Interpret(p, 3, architecture, architecture, syscall) == Interpret(p, 4, syscall, architecture, syscall);
    assert Interpret(p, 1, architecture, architecture, syscall)
        == Interpret(p, if architecture == AUDIT_ARCH_X86_64 then 3 else 2, architecture, architecture, syscall);
  }

  /** For every table of blocked numbers, every highest reviewed number, either byte order and every
      architecture and system call, interpreting the emitted bytes never leaves the program, and allows
      exactly what the policy allows; everything else is killed. */
  lemma {:induction false} FilterMeansPolicy(table: seq<u32>, highest: u32, order: ByteOrder, architecture: u32,
                                             syscall: u32)
    ensures Interpret(DecodeAll(EncodeAll(Program(table, highest), order), order), 0, 0, architecture, syscall)
            == Returned(if Allowed(table, highest, architecture, syscall) then RET_ALLOW else RET_KILL_PROCESS)
  {
    DecodeAllEncodeAll(Program(table, highest), order);
    PrologueMeans(table, highest, architecture, syscall);
    ChecksMean(table, highest, 0, architecture, syscall);
    assert table[0..] == table;
  }

  /** The emitted bytes, run. */
  method DefaultVerdict(architecture: u32, syscall: u32, order: ByteOrder) returns (verdict: Verdict)
    ensures verdict == Returned(if Allowed(BLOCKED_SYSCALLS, MAX_REVIEWED_SYSCALL, architecture, syscall) then RET_ALLOW
            else RET_KILL_PROCESS)
  {
    var bytes := FilterBytes(BLOCKED_SYSCALLS, MAX_REVIEWED_SYSCALL, order);
    FilterMeansPolicy(BLOCKED_SYSCALLS, MAX_REVIEWED_SYSCALL, order, architecture, syscall);
    verdict := Evaluate(bytes, architecture, syscall, order);
  }
}
