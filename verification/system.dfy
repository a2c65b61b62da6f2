/** The `System` object: the 64 KiB memory shared with the CPU, the block operations
    the monitor uses on it (fill, load an image, save a range) and the program counter
    change that is refused while the CPU runs. */
module Emulation {
  import opened Common
  import opened Processor

  /** `mem` with every byte of `first..last` (inclusive) set to `value`; an empty range
      when `first == last + 1`. */
  function Filled(mem: seq<Byte>, first: Word, last: Word, value: Byte): (r: seq<Byte>)
    requires |mem| == MemorySize && first <= last + 1
    ensures |r| == MemorySize
    ensures forall i :: 0 <= i < MemorySize ==> r[i] == if first <= i <= last then value else mem[i]
  {
    mem[..first] + seq(last + 1 - first, _ => value) + mem[last + 1..]
  }

  /** The bytes of `first..last` (inclusive) in order; empty when `first == last + 1`. */
  function Saved(mem: seq<Byte>, first: Word, last: Word): (r: seq<Byte>)
    requires |mem| == MemorySize && first <= last + 1
    ensures |r| == last - first + 1
    ensures forall k :: 0 <= k < |r| ==> r[k] == mem[first + k]
  {
    mem[first..last + 1]
  }

  /** How many bytes of a `size`-byte image fit from `first` to the end of memory. */
  function LoadCount(first: Word, size: nat): (n: nat)
    ensures n <= size && first + n <= MemorySize
    ensures n == size || first + n == MemorySize
  {
    if size <= MemorySize - first then size else MemorySize - first
  }

  /** `mem` with the image `data` copied in from `first`, cut off at the end of memory. */
  function Loaded(mem: seq<Byte>, first: Word, data: seq<Byte>): (r: seq<Byte>)
    requires |mem| == MemorySize
    ensures |r| == MemorySize
    ensures forall i :: 0 <= i < MemorySize ==>
      r[i] == if first <= i < first + LoadCount(first, |data|) then data[i - first] else mem[i]
  {
    var n := LoadCount(first, |data|);
    mem[..first] + data[..n] + mem[first + n..]
  }

  /** The count `loadMemory` computes as written: the clamped size stored into a
      `uint16_t`. */
  function LoadCountAsWritten(first: Word, size: nat): (n: Word) {
    Wrap16(LoadCount(first, size))
  }

  /** The 16-bit count differs from the clamped size exactly when a whole 64 KiB (or
      larger) image is loaded at address 0; the full image then loads as nothing. */
  lemma LoadCountAsWrittenWraps(first: Word, size: nat)
    ensures LoadCountAsWritten(first, size) != LoadCount(first, size)
            <==> first == 0 && size >= MemorySize
    ensures first == 0 && size >= MemorySize ==> LoadCountAsWritten(first, size) == 0
  {
  }

  /** A loaded image reads back whole with `saveMemory` when it fits in memory. The one
      range this cannot name is an empty image at 0: its last address, `first + size - 1`,
      would be -1, which a `uint16_t` holds as 0xFFFF. */
  lemma {:induction false} LoadThenSave(mem: seq<Byte>, first: Word, data: seq<Byte>)
    requires |mem| == MemorySize && (0 < |data| || 0 < first) && first + |data| <= MemorySize
    ensures Saved(Loaded(mem, first, data), first, first + |data| - 1) == data
  {
    var r := Saved(Loaded(mem, first, data), first, first + |data| - 1);
    assert LoadCount(first, |data|) == |data|;
    assert forall k :: 0 <= k < |data| ==> r[k] == data[k];
  }

  /** Saving a filled range gives the fill value for every byte of it. */
  lemma FillThenSave(mem: seq<Byte>, first: Word, last: Word, value: Byte)
    requires |mem| == MemorySize && first <= last + 1
    ensures Saved(Filled(mem, first, last, value), first, last) == seq(last - first + 1, _ => value)
  {
    var r := Saved(Filled(mem, first, last, value), first, last);
    assert forall k :: 0 <= k < |r| ==> r[k] == value;
  }

  /** Loading leaves every byte outside the loaded range as it was, and loading what
      memory already holds changes nothing. */
  lemma LoadSaved(mem: seq<Byte>, first: Word, last: Word)
    requires |mem| == MemorySize && first <= last + 1
    ensures Loaded(mem, first, Saved(mem, first, last)) == mem
  {
    var r := Loaded(mem, first, Saved(mem, first, last));
    assert forall i :: 0 <= i < MemorySize ==> r[i] == mem[i];
  }

  class System {
    const memory: array<Byte>
    const cpu: Cpu

    /** The CPU works on the same memory array as the system. */
    predicate Valid() {
      memory.Length == MemorySize && cpu.memory == memory && cpu.Valid()
    }

    /** The memory starts with arbitrary contents, given here as `initial`. */
    constructor (initial: seq<Byte>)
      requires |initial| == MemorySize
      ensures Valid() && fresh(memory) && fresh(cpu)
      ensures memory[..] == initial
      ensures cpu.executionStatus == Stopped
    {
      var m := new Byte[MemorySize](i => if 0 <= i < |initial| then initial[i] else 0);
      memory := m;
      cpu := new Cpu(m);
    }

    /** `fillMemory`: every byte of `first..last` set to `value`, nothing else. */
    method FillMemory(first: Word, last: Word, value: Byte)
      requires Valid() && first <= last + 1
      modifies memory
      ensures Valid()
      ensures memory[..] == Filled(old(memory[..]), first, last, value)
    {
      ghost var mem := memory[..];
      var i := first;
      while i < last + 1
        invariant first <= i <= last + 1
        invariant forall j :: 0 <= j < MemorySize ==>
          memory[j] == if first <= j < i then value else mem[j]
      {
        memory[i] := value;
        i := i + 1;
      }
      assert memory[..] == Filled(mem, first, last, value);
    }

    /** `loadMemory`: as much of `data` as fits copied in from `first`; the number of
        bytes copied is returned. */
    method LoadMemory(first: Word, data: seq<Byte>) returns (size: nat)
      requires Valid()
      modifies memory
      ensures Valid()
      ensures size == LoadCount(first, |data|)
      ensures memory[..] == Loaded(old(memory[..]), first, data)
    {
      ghost var mem := memory[..];
      size := if |data| <= MemorySize - first then |data| else MemorySize - first;
      var i := 0;
      while i < size
        invariant 0 <= i <= size
        invariant forall j :: 0 <= j < MemorySize ==>
          memory[j] == if first <= j < first + i then data[j - first] else mem[j]
      {
        memory[first + i] := data[i];
        i := i + 1;
      }
      assert memory[..] == Loaded(mem, first, data);
    }

    /** `saveMemory`: the bytes of `first..last` (inclusive), appended one by one. */
    method SaveMemory(first: Word, last: Word) returns (data: seq<Byte>)
      requires Valid() && first <= last + 1
      ensures data == Saved(memory[..], first, last)
    {
      data := [];
      var i := first;
      while i < last + 1
        invariant first <= i <= last + 1
        invariant data == memory[first..i]
      {
        data := data + [memory[i]];
        i := i + 1;
      }
    }

    /** `changeProgramCounter`: the PC is set only while the CPU is not running; the
        result says whether it changed, which is when the new state is announced. */
    method ChangeProgramCounter(pc: Word) returns (changed: bool)
      requires Valid()
      modifies cpu`pc
      ensures Valid()
      ensures changed <==> old(cpu.executionStatus) != Running && old(cpu.pc) != pc
      ensures cpu.pc == if cpu.executionStatus == Running then old(cpu.pc) else pc
    {
      changed := false;
      if cpu.executionStatus != Running && cpu.pc != pc {
        cpu.pc := pc;
        changed := true;
      }
    }
  }
}
