/**
 * The interpreter: `execute_command` applies one of the four opcodes to the
 * operand stack and the 10 000-cell memory, and `interpret` resets that
 * state and runs the decoded records of a byte stream in order, logging
 * `{opcode, arg, stack}` after each step that succeeds.
 *
 * The source reaches memory through Python list indexing, so an index
 * `-10000 <= i < 0` would address cell `10000 + i`; that is modelled
 * (`Slot`), and `RunNonNegative` shows it never happens on a fresh run.
 * An index the list rejects (`IndexError`) is the fault
 * `AddressOutOfRange`.
 */
module Interpreter {
  import opened Wrappers
  import opened Format

  const MemorySize: nat := 10000

  const LoadConstant: nat := 1
  const LoadFromMemory: nat := 7
  const StoreToMemory: nat := 2
  const Multiply: nat := 3

  /** The exceptions `execute_command` raises. */
  datatype Fault =
    | StackUnderflow(opcode: nat)
    | AddressOutOfRange(address: int)
    | UnknownOpcode(opcode: nat)

  /** Memory, operand stack (top last) and the products of `MULTIPLY`. */
  datatype Vm = Vm(memory: seq<int>, stack: seq<int>, results: seq<int>)

  /** The cell `xs[index]` denotes in a Python list of `length` cells. */
  function Slot(index: int, length: nat): (r: Option<nat>)
    ensures r.Some? ==> r.value < length
  {
    if 0 <= index < length then Some(index)
    else if 0 <= index + length < length then Some(index + length)
    else None
  }

  /** The state after one command, or the fault it raised together with the
      state at that moment (the operand is popped before a bad address is
      noticed). */
  datatype Stepped = Stepped(vm: Vm, fault: Option<Fault>)

  /** `execute_command(opcode, arg)`. */
  function Execute(opcode: nat, arg: nat, vm: Vm): (s: Stepped) {
    var stack, memory := vm.stack, vm.memory;
    if opcode == LoadConstant then
      Stepped(vm.(stack := stack + [arg]), None)
    else if opcode == LoadFromMemory then
      if stack == [] then Stepped(vm, Some(StackUnderflow(opcode)))
      else
        var address, rest := stack[|stack| - 1], stack[..|stack| - 1];
        match Slot(address, |memory|)
        case None => Stepped(vm.(stack := rest), Some(AddressOutOfRange(address)))
        case Some(k) => Stepped(vm.(stack := rest + [memory[k]]), None)
    else if opcode == StoreToMemory then
      if stack == [] then Stepped(vm, Some(StackUnderflow(opcode)))
      else
        var value, rest := stack[|stack| - 1], stack[..|stack| - 1];
        match Slot(arg, |memory|)
        case None => Stepped(vm.(stack := rest), Some(AddressOutOfRange(arg)))
        case Some(k) => Stepped(vm.(stack := rest, memory := memory[k := value]), None)
    else if opcode == Multiply then
      if stack == [] then Stepped(vm, Some(StackUnderflow(opcode)))
      else
        var value, rest := stack[|stack| - 1], stack[..|stack| - 1];
        match Slot(arg, |memory|)
        case None => Stepped(vm.(stack := rest), Some(AddressOutOfRange(arg)))
        case Some(k) =>
          var result := value * memory[k];
          Stepped(Vm(memory[k := result], rest + [result], vm.results + [result]), None)
    else
      Stepped(vm, Some(UnknownOpcode(opcode)))
  }

  datatype TraceEntry = TraceEntry(opcode: nat, arg: nat, stack: seq<int>)

  /** The step that failed (counted from 0), its instruction and its fault. */
  datatype RunError = RunError(step: nat, instr: Instr, fault: Fault)

  datatype RunState = RunState(vm: Vm, trace: seq<TraceEntry>, error: Option<RunError>)

  /** The instructions executed in order from `init`, stopping at the first
      fault; each successful step logs its opcode, argument and the stack
      after it. */
  function RunProgram(prog: seq<Instr>, init: Vm): (r: RunState) {
    if |prog| == 0 then RunState(init, [], None)
    else
      var before := RunProgram(prog[..|prog| - 1], init);
      if before.error.Some? then before
      else
        var instr := prog[|prog| - 1];
        var after := Execute(instr.opcode, instr.arg, before.vm);
        match after.fault
        case Some(f) => RunState(after.vm, before.trace, Some(RunError(|prog| - 1, instr, f)))
        case None => RunState(after.vm, before.trace + [TraceEntry(instr.opcode, instr.arg, after.vm.stack)], None)
  }

  /** The state `interpret` starts from: zeroed memory, empty stack; the
      product log is a module global the source never clears. */
  function Reset(results: seq<int>): (vm: Vm) {
    Vm(seq(MemorySize, _ => 0), [], results)
  }

  /** All that `interpret` computes from a byte stream. */
  function Interpretation(data: seq<Byte>, results: seq<int>): (r: RunState) {
    RunProgram(DecodeProgram(data), Reset(results))
  }

  /** Python's `xs[start:end]` bound: negative counts from the end, and
      everything is clamped to `0 .. length`. */
  function ClampIndex(i: int, length: nat): (r: nat)
    ensures r <= length
  {
    if i < 0 then (if i + length < 0 then 0 else i + length)
    else if i > length then length
    else i
  }

  /** `xs[start:end]`. */
  function PySlice(xs: seq<int>, start: int, end: int): (r: seq<int>)
    ensures |r| <= |xs|
  {
    var lo, hi := ClampIndex(start, |xs|), ClampIndex(end, |xs|);
    if lo < hi then xs[lo..hi] else []
  }

  /** The interpreter's state (the globals `memory`, `stack`,
      `result_vector` and the interpreter's use of `log_file_data`). */
  class Machine {
    var memory: array<int>
    var stack: seq<int>
    var results: seq<int>
    var trace: seq<TraceEntry>

    function State(): (vm: Vm)
      reads this, memory
    {
      Vm(memory[..], stack, results)
    }

    constructor ()
      ensures State() == Reset([]) && trace == []
      ensures memory.Length == MemorySize
    {
      memory := new int[MemorySize](_ => 0);
      stack := [];
      results := [];
      trace := [];
    }

    /** `execute_command`: updates stack, memory and products in place. */
    method ExecuteCommand(opcode: nat, arg: nat) returns (fault: Option<Fault>)
      modifies this, memory
      ensures memory == old(memory) && trace == old(trace)
      ensures Stepped(State(), fault) == Execute(opcode, arg, old(State()))
    {
      fault := None;
      if opcode == LoadConstant {
        stack := stack + [arg];
      } else if opcode == LoadFromMemory {
        if stack == [] {
          return Some(StackUnderflow(opcode));
        }
        var address := stack[|stack| - 1];
        stack := stack[..|stack| - 1];
        var slot := Slot(address, memory.Length);
        if slot.None? {
          return Some(AddressOutOfRange(address));
        }
        stack := stack + [memory[slot.value]];
      } else if opcode == StoreToMemory {
        if stack == [] {
          return Some(StackUnderflow(opcode));
        }
        var value := stack[|stack| - 1];
        stack := stack[..|stack| - 1];
        var slot := Slot(arg, memory.Length);
        if slot.None? {
          return Some(AddressOutOfRange(arg));
        }
        memory[slot.value] := value;
      } else if opcode == Multiply {
        if stack == [] {
          return Some(StackUnderflow(opcode));
        }
        var value := stack[|stack| - 1];
        stack := stack[..|stack| - 1];
        var slot := Slot(arg, memory.Length);
        if slot.None? {
          return Some(AddressOutOfRange(arg));
        }
        var result := value * memory[slot.value];
        stack := stack + [result];
        memory[slot.value] := result;
        results := results + [result];
      } else {
        fault := Some(UnknownOpcode(opcode));
      }
    }

    /** `interpret`: fresh memory, empty stack and trace, then one record per
        5-byte stride until the stream or a fault ends the run. */
    method Interpret(data: seq<Byte>) returns (error: Option<RunError>)
      modifies this
      ensures fresh(memory) && memory.Length == MemorySize
      ensures RunState(State(), trace, error) == Interpretation(data, old(results))
    {
      memory := new int[MemorySize](_ => 0);
      stack := [];
      trace := [];
      assert State() == Reset(old(results));
      ghost var prog := DecodeProgram(data);
      ghost var init := State();
      var i, k := 0, 0;
      while i < |data|
        invariant i == 5 * k && i <= |data|
        invariant fresh(memory) && memory.Length == MemorySize
        invariant RunProgram(prog[..k], init) == RunState(State(), trace, None)
      {
        if |data| - i < 5 {
          break;
        }
        DecodeProgramAt(data, k);
        assert data[i..i + 5] == data[5 * k..5 * k + 5];
        ghost var before := trace;
        var instr, fault := ExecuteRecord(data[i..i + 5]);
        assert instr == prog[k];
        if fault.Some? {
          error := Some(RunError(k, instr, fault.value));
          RunFaults(prog, k, init, State(), fault);
          return;
        }
        RunSucceeds(prog, k, init, State());
        assert trace == before + [TraceEntry(prog[k].opcode, prog[k].arg, State().stack)];
        i, k := i + 5, k + 1;
      }
      assert prog[..k] == prog;
      error := None;
    }

    /** One 5-byte stride of `interpret`: unpack bytes 0..3, execute, and
        log the step if it succeeded. */
    method ExecuteRecord(chunk: seq<Byte>) returns (instr: Instr, fault: Option<Fault>)
      requires |chunk| == 5
      modifies this, memory
      ensures memory == old(memory) && instr == DecodeChunk(chunk)
      ensures Stepped(State(), fault) == Execute(instr.opcode, instr.arg, old(State()))
      ensures trace == if fault.Some? then old(trace) else old(trace) + [TraceEntry(instr.opcode, instr.arg, stack)]
    {
      var command := Word(chunk[..4]);
      var opcode := Opcode(command);
      var arg := Arg(command);
      instr := Instr(opcode, arg);
      fault := ExecuteCommand(opcode, arg);
      if fault.None? {
        trace := trace + [TraceEntry(opcode, arg, stack)];
      }
    }

    /** `memory[start:end]`, the slice written to the result report. */
    method MemorySlice(start: int, end: int) returns (slice: seq<int>)
      ensures slice == PySlice(memory[..], start, end)
    {
      var lo, hi := ClampIndex(start, memory.Length), ClampIndex(end, memory.Length);
      if lo < hi {
        slice := memory[lo..hi];
      } else {
        slice := [];
      }
    }
  }

  /** Once a prefix of the program faults, the rest is never executed. */
  lemma {:induction false} RunStopsAtError(prog: seq<Instr>, k: nat, init: Vm)
    requires k <= |prog| && RunProgram(prog[..k], init).error.Some?
    ensures RunProgram(prog, init) == RunProgram(prog[..k], init)
    decreases |prog| - k
  {
    if k < |prog| {
      assert prog[..k + 1][..k] == prog[..k];
      RunStopsAtError(prog, k + 1, init);
    } else {
      assert prog[..k] == prog;
    }
  }

  /** An instruction that faults after a prefix that ran cleanly ends the
      run with that fault. */
  lemma RunFaults(prog: seq<Instr>, k: nat, init: Vm, vm: Vm, fault: Option<Fault>)
    requires k < |prog| && RunProgram(prog[..k], init).error.None?
    requires Execute(prog[k].opcode, prog[k].arg, RunProgram(prog[..k], init).vm) == Stepped(vm, fault)
    requires fault.Some?
    ensures RunProgram(prog, init) == RunState(vm, RunProgram(prog[..k], init).trace, Some(RunError(k, prog[k], fault.value)))
  {
    assert prog[..k + 1][..k] == prog[..k];
    RunStopsAtError(prog, k + 1, init);
  }

  /** An instruction that succeeds after a prefix that ran cleanly extends
      the trace by one entry. */
  lemma RunSucceeds(prog: seq<Instr>, k: nat, init: Vm, vm: Vm)
    requires k < |prog| && RunProgram(prog[..k], init).error.None?
    requires Execute(prog[k].opcode, prog[k].arg, RunProgram(prog[..k], init).vm) == Stepped(vm, None)
    ensures RunProgram(prog[..k + 1], init) ==
      RunState(vm, RunProgram(prog[..k], init).trace + [TraceEntry(prog[k].opcode, prog[k].arg, vm.stack)], None)
  {
    assert prog[..k + 1][..k] == prog[..k];
  }

  // ---- One command ----

  /** The four opcodes the machine knows. */
  predicate Known(opcode: nat) {
    opcode == LoadConstant || opcode == LoadFromMemory || opcode == StoreToMemory || opcode == Multiply
  }

  /** Every opcode but `LOAD_CONSTANT` pops an operand, and raises without
      touching anything when there is none. */
  lemma ExecuteUnderflow(opcode: nat, arg: nat, vm: Vm)
    ensures var s := Execute(opcode, arg, vm);
      (s.fault.Some? && s.fault.value.StackUnderflow?) <==>
        (vm.stack == [] && Known(opcode) && opcode != LoadConstant)
    ensures var s := Execute(opcode, arg, vm);
      s.fault.Some? && s.fault.value.StackUnderflow? ==> s.vm == vm && s.fault.value.opcode == opcode
  {
  }

  /** An opcode outside the four raises, and changes nothing. */
  lemma ExecuteUnknown(opcode: nat, arg: nat, vm: Vm)
    ensures var s := Execute(opcode, arg, vm);
      (s.fault.Some? && s.fault.value.UnknownOpcode?) <==> !Known(opcode)
    ensures !Known(opcode) ==> Execute(opcode, arg, vm) == Stepped(vm, Some(UnknownOpcode(opcode)))
  {
  }

  /** The address a memory opcode uses: the popped operand for
      `LOAD_FROM_MEMORY`, the argument otherwise. */
  function Address(opcode: nat, arg: nat, stack: seq<int>): (address: int)
    requires stack != []
  {
    if opcode == LoadFromMemory then stack[|stack| - 1] else arg
  }

  /** A memory opcode with an operand raises exactly when its address is not
      a cell of the list, after the operand has been popped. */
  lemma ExecuteBadAddress(opcode: nat, arg: nat, vm: Vm)
    ensures var s := Execute(opcode, arg, vm);
      (s.fault.Some? && s.fault.value.AddressOutOfRange?) <==>
        (vm.stack != [] && Known(opcode) && opcode != LoadConstant &&
         Slot(Address(opcode, arg, vm.stack), |vm.memory|).None?)
    ensures var s := Execute(opcode, arg, vm);
      s.fault.Some? && s.fault.value.AddressOutOfRange? ==>
        s.fault.value.address == Address(opcode, arg, vm.stack) &&
        s.vm == vm.(stack := vm.stack[..|vm.stack| - 1])
  {
  }

  /** What a command that succeeds does to the stack: `LOAD_CONSTANT`
      pushes its argument, `STORE_TO_MEMORY` pops, the other two replace
      the top, and nothing below the top changes; `LOAD_FROM_MEMORY`'s new
      top is the cell its popped address names. */
  lemma ExecuteStack(opcode: nat, arg: nat, vm: Vm)
    requires Execute(opcode, arg, vm).fault.None?
    ensures var st := Execute(opcode, arg, vm).vm.stack;
      if opcode == LoadConstant then st == vm.stack + [arg]
      else
        vm.stack != [] && st[..|vm.stack| - 1] == vm.stack[..|vm.stack| - 1] &&
        |st| == (if opcode == StoreToMemory then |vm.stack| - 1 else |vm.stack|)
    ensures opcode == LoadFromMemory ==>
      var top := vm.stack[|vm.stack| - 1];
      Slot(top, |vm.memory|).Some? &&
      Execute(opcode, arg, vm).vm.stack ==
        vm.stack[..|vm.stack| - 1] + [vm.memory[Slot(top, |vm.memory|).value]]
  {
  }

  /** What a command that succeeds does to memory and to the products: only
      `STORE_TO_MEMORY` and `MULTIPLY` write, and only the cell their
      argument names; `MULTIPLY` stores the product, pushes it and appends
      it to the products. */
  lemma ExecuteMemory(opcode: nat, arg: nat, vm: Vm)
    requires Execute(opcode, arg, vm).fault.None?
    ensures var after := Execute(opcode, arg, vm).vm;
      |after.memory| == |vm.memory| &&
      (opcode == StoreToMemory || opcode == Multiply ==> Slot(arg, |vm.memory|).Some?) &&
      (forall j :: 0 <= j < |vm.memory| && (Slot(arg, |vm.memory|) != Some(j) || opcode == LoadConstant || opcode == LoadFromMemory) ==>
        after.memory[j] == vm.memory[j]) &&
      (opcode == StoreToMemory ==> after.memory[Slot(arg, |vm.memory|).value] == vm.stack[|vm.stack| - 1]) &&
      (opcode == Multiply ==>
        var product := vm.stack[|vm.stack| - 1] * vm.memory[Slot(arg, |vm.memory|).value];
        after.memory[Slot(arg, |vm.memory|).value] == product &&
        after.stack[|after.stack| - 1] == product &&
        after.results == vm.results + [product]) &&
      (opcode != Multiply ==> after.results == vm.results)
  {
  }

  /** `LOAD_FROM_MEMORY` reads back what `STORE_TO_MEMORY` wrote:
      storing `v` at `a`, pushing `a` and loading leaves `v` on top. */
  lemma StoreThenLoad(vm: Vm, a: nat, v: int)
    requires a < |vm.memory| && vm.stack != [] && vm.stack[|vm.stack| - 1] == v
    ensures var s1 := Execute(StoreToMemory, a, vm);
      var s2 := Execute(LoadConstant, a, s1.vm);
      var s3 := Execute(LoadFromMemory, 0, s2.vm);
      s1.fault.None? && s2.fault.None? && s3.fault.None? &&
      s3.vm.stack == vm.stack && s3.vm.memory == vm.memory[a := v]
  {
    var s1 := Execute(StoreToMemory, a, vm);
    assert s1.vm.stack + [a] != [];
  }

  // ---- Whole runs ----

  /** A program whose every step succeeds, passing through the states
      `vms`, runs cleanly to the last of them and logs one entry per step. */
  lemma {:induction false} RunAlong(prog: seq<Instr>, vms: seq<Vm>)
    requires |vms| == |prog| + 1
    requires forall k :: 0 <= k < |prog| ==>
      Execute(prog[k].opcode, prog[k].arg, vms[k]) == Stepped(vms[k + 1], None)
    ensures RunProgram(prog, vms[0]).error.None?
    ensures RunProgram(prog, vms[0]).vm == vms[|prog|]
    ensures |RunProgram(prog, vms[0]).trace| == |prog|
  {
    if |prog| > 0 {
      var n := |prog| - 1;
      var front, states := prog[..n], vms[..n + 1];
      forall k | 0 <= k < |front|
        ensures Execute(front[k].opcode, front[k].arg, states[k]) == Stepped(states[k + 1], None)
      {
        assert front[k] == prog[k] && states[k] == vms[k] && states[k + 1] == vms[k + 1];
      }
      RunAlong(front, states);
      assert states[0] == vms[0] && states[n] == vms[n];
      assert Execute(prog[n].opcode, prog[n].arg, vms[n]) == Stepped(vms[n + 1], None);
    }
  }

  /** A run logs one entry per instruction it completes: all of them when
      it ends cleanly; otherwise the failing step is a real index, its
      instruction is the program's, the steps before it all succeeded and
      the trace holds exactly their entries. */
  lemma {:induction false} RunShape(prog: seq<Instr>, init: Vm)
    ensures var r := RunProgram(prog, init);
      |r.vm.memory| == |init.memory| &&
      (r.error.None? ==> |r.trace| == |prog|) &&
      (r.error.Some? ==>
        r.error.value.step < |prog| && r.error.value.instr == prog[r.error.value.step] &&
        |r.trace| == r.error.value.step &&
        RunProgram(prog[..r.error.value.step], init).error.None? &&
        RunProgram(prog[..r.error.value.step], init).trace == r.trace)
  {
    if |prog| > 0 {
      var front := prog[..|prog| - 1];
      RunShape(front, init);
      var before := RunProgram(front, init);
      var instr := prog[|prog| - 1];
      ExecuteLength(instr.opcode, instr.arg, before.vm);
      if before.error.Some? {
        var k := before.error.value.step;
        assert front[..k] == prog[..k];
      } else {
        assert prog[..|prog| - 1] == front;
      }
    }
  }

  lemma ExecuteLength(opcode: nat, arg: nat, vm: Vm)
    ensures |Execute(opcode, arg, vm).vm.memory| == |vm.memory|
  {
  }

  /** The trace only grows: the trace of every prefix of the program is a
      prefix of the trace of the whole. */
  lemma {:induction false} RunTracePrefix(prog: seq<Instr>, k: nat, init: Vm)
    requires k <= |prog|
    ensures RunProgram(prog[..k], init).trace <= RunProgram(prog, init).trace
    decreases |prog| - k
  {
    if k < |prog| {
      RunTracePrefix(prog, k + 1, init);
      assert prog[..k + 1][..k] == prog[..k];
    } else {
      assert prog[..k] == prog;
    }
  }

  /** An unknown opcode after a clean prefix stops the run at that step: the
      earlier entries stay in the trace, the failing step logs none and the
      state is the one before it. */
  lemma RunUnknownOpcode(prog: seq<Instr>, k: nat, init: Vm)
    requires k < |prog| && RunProgram(prog[..k], init).error.None? && !Known(prog[k].opcode)
    ensures var before := RunProgram(prog[..k], init);
      RunProgram(prog, init) ==
        RunState(before.vm, before.trace, Some(RunError(k, prog[k], UnknownOpcode(prog[k].opcode))))
  {
    var before := RunProgram(prog[..k], init);
    ExecuteUnknown(prog[k].opcode, prog[k].arg, before.vm);
    RunFaults(prog, k, init, before.vm, Some(UnknownOpcode(prog[k].opcode)));
  }

  /** Memory of the right size whose cells, like every stack entry, are not
      negative. */
  ghost predicate NonNegative(vm: Vm) {
    |vm.memory| == MemorySize &&
    (forall j :: 0 <= j < |vm.memory| ==> vm.memory[j] >= 0) &&
    (forall j :: 0 <= j < |vm.stack| ==> vm.stack[j] >= 0)
  }

  /** From a non-negative state every command leaves a non-negative state,
      and a bad address is always past the end of memory: Python's
      negative indexing is never reached. */
  lemma ExecuteNonNegative(opcode: nat, arg: nat, vm: Vm)
    requires NonNegative(vm)
    ensures NonNegative(Execute(opcode, arg, vm).vm)
    ensures var s := Execute(opcode, arg, vm);
      s.fault.Some? && s.fault.value.AddressOutOfRange? ==> s.fault.value.address >= MemorySize
  {
    var s := Execute(opcode, arg, vm);
    if opcode == Multiply && s.fault.None? {
      var value := vm.stack[|vm.stack| - 1];
      var k := Slot(arg, |vm.memory|).value;
      assert value >= 0 && vm.memory[k] >= 0;
      assert s.vm.stack == vm.stack[..|vm.stack| - 1] + [value * vm.memory[k]];
    }
  }

  /** `interpret` only ever sees non-negative values, so every address
      fault names a cell past the end of memory. */
  lemma {:induction false} RunNonNegative(prog: seq<Instr>, init: Vm)
    requires NonNegative(init)
    ensures NonNegative(RunProgram(prog, init).vm)
    ensures var r := RunProgram(prog, init);
      r.error.Some? && r.error.value.fault.AddressOutOfRange? ==> r.error.value.fault.address >= MemorySize
  {
    if |prog| > 0 {
      var front := prog[..|prog| - 1];
      RunNonNegative(front, init);
      var instr := prog[|prog| - 1];
      ExecuteNonNegative(instr.opcode, instr.arg, RunProgram(front, init).vm);
    }
  }

  /** The state `interpret` starts from is non-negative. */
  lemma ResetNonNegative(results: seq<int>)
    ensures NonNegative(Reset(results))
  {
  }

  /** The products left by earlier runs never influence a command: they
      are only appended to. */
  lemma ExecuteResults(opcode: nat, arg: nat, memory: seq<int>, stack: seq<int>, results: seq<int>)
    ensures var a, b := Execute(opcode, arg, Vm(memory, stack, results)), Execute(opcode, arg, Vm(memory, stack, []));
      a.fault == b.fault && a.vm == b.vm.(results := results + b.vm.results)
  {
  }

  /** The same holds for whole runs: a run started with leftover products
      computes the same memory, stack, trace and error as one started
      without, and its products are the leftovers followed by its own. */
  lemma {:induction false} RunResults(prog: seq<Instr>, memory: seq<int>, stack: seq<int>, results: seq<int>)
    ensures var a, b := RunProgram(prog, Vm(memory, stack, results)), RunProgram(prog, Vm(memory, stack, []));
      a.trace == b.trace && a.error == b.error && a.vm == b.vm.(results := results + b.vm.results)
  {
    if |prog| > 0 {
      var front := prog[..|prog| - 1];
      RunResults(front, memory, stack, results);
      var b := RunProgram(front, Vm(memory, stack, []));
      var instr := prog[|prog| - 1];
      ExecuteResults(instr.opcode, instr.arg, b.vm.memory, b.vm.stack, results + b.vm.results);
      ExecuteResults(instr.opcode, instr.arg, b.vm.memory, b.vm.stack, b.vm.results);
      calc {
        Execute(instr.opcode, instr.arg, Vm(b.vm.memory, b.vm.stack, results + b.vm.results)).vm.results;
        results + b.vm.results + Execute(instr.opcode, instr.arg, Vm(b.vm.memory, b.vm.stack, [])).vm.results;
        results + Execute(instr.opcode, instr.arg, b.vm).vm.results;
      }
    } else {
      assert results + [] == results;
    }
  }

  /** Interpreting a stream twice gives the same memory, stack, trace and
      error; the second run's products follow the first run's. */
  lemma InterpretAgain(data: seq<Byte>, results: seq<int>)
    ensures var a, b := Interpretation(data, results), Interpretation(data, []);
      a.trace == b.trace && a.error == b.error && a.vm == b.vm.(results := results + b.vm.results)
  {
    RunResults(DecodeProgram(data), Reset([]).memory, [], results);
  }

  /** A stream that runs cleanly logs exactly one entry per complete
      5-byte record. */
  lemma StepCount(data: seq<Byte>, results: seq<int>)
    ensures var r := Interpretation(data, results);
      |r.trace| <= |data| / 5 && (r.error.None? ==> |r.trace| == |data| / 5)
  {
    RunShape(DecodeProgram(data), Reset(results));
  }

  /** A trailing piece shorter than a record is never executed. */
  lemma TrailingBytesIgnored(data: seq<Byte>, tail: seq<Byte>, results: seq<int>)
    requires |data| % 5 == 0 && |tail| < 5
    ensures Interpretation(data + tail, results) == Interpretation(data, results)
  {
    DecodeProgramAppend(data, tail);
    assert DecodeProgram(tail) == [];
    assert DecodeProgram(data) + [] == DecodeProgram(data);
  }

  /** The fifth byte of a record, like a trailing short piece, never
      affects a run. */
  lemma PaddingIgnored(data: seq<Byte>, other: seq<Byte>, results: seq<int>)
    requires SameFields(data, other)
    ensures Interpretation(data, results) == Interpretation(other, results)
  {
    DecodeIgnoresPadding(data, other);
  }

  /** A slice with bounds inside the list is the plain subsequence; any
      slice is a piece of the list. */
  lemma PySliceRange(xs: seq<int>, start: int, end: int)
    ensures 0 <= start <= end <= |xs| ==> PySlice(xs, start, end) == xs[start..end]
    ensures var lo := ClampIndex(start, |xs|);
      lo + |PySlice(xs, start, end)| <= |xs| && PySlice(xs, start, end) == xs[lo..lo + |PySlice(xs, start, end)|]
  {
  }
}
