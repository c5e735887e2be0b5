/** `coctx.cpp`, and the stack of a routine as `Routine_t`'s constructor sizes it. */
module Coctx {
  import opened Wrappers
  import opened Machine
  import opened ContextSwap

  const PAGE := 4096
  const DEFAULT_STACK := 131072 // 128 KiB
  const MAX_STACK := 8388608    // 8 MiB

  /** Bytes allocated for the stack size that `attr` asks for. */
  function StackSize(attr: Option<int>): (size: int)
    ensures 4096 <= size <= 8388608 && size % 4096 == 0
    ensures attr.None? || attr.value <= 0 ==> size == 131072
    ensures attr.Some? && 0 < attr.value <= 8388608 ==> attr.value <= size < attr.value + 4096
    ensures attr.Some? && attr.value > 8388608 ==> size == 8388608
  {
    var asked := if attr.None? then DEFAULT_STACK else attr.value;
    var clipped := if asked <= 0 then DEFAULT_STACK else if asked > MAX_STACK then MAX_STACK else asked;
    if clipped % PAGE != 0 then clipped - clipped % PAGE + PAGE else clipped
  }

  /** Coctx_make's `sp`: the end of the stack, rounded down to a multiple of 16. */
  function StackTop(base: int, size: int): int {
    (base + size) - (base + size) % 16
  }

  function ZeroFrame(): Frame {
    seq(SLOTS, _ => 0)
  }

  predicate Stack(base: int, size: int) {
    0 <= base && PAGE <= size && base + size < WORDS
  }

  /** The registers that Coctx_make puts into a context. */
  function MadeFrame(base: int, size: int, pfn: Word, s: Word, s1: Word): Frame
    requires Stack(base, size)
  {
    ZeroFrame()[RSP_SLOT := StackTop(base, size) - 8][RET_SLOT := pfn][RDI_SLOT := s][RSI_SLOT := s1]
  }

  class Context {
    const regs: array<Word>
    var ssSize: Word
    var ssSp: Word

    ghost predicate Valid()
      reads this
    {
      regs.Length == SLOTS
    }

    ghost function Contents(): Frame
      requires Valid()
      reads this, regs
    {
      regs[..]
    }

    constructor ()
      ensures Valid() && fresh(regs)
    {
      regs := new Word[SLOTS](_ => 0);
    }

    method ClearRegs()
      requires Valid()
      modifies regs
      ensures Contents() == ZeroFrame()
    {
      var i := 0;
      while i < SLOTS
        invariant 0 <= i <= SLOTS
        invariant forall k :: 0 <= k < i ==> regs[k] == 0
      {
        regs[i] := 0;
        i := i + 1;
      }
    }

    method Make(pfn: Word, s: Word, s1: Word)
      requires Valid() && Stack(ssSp, ssSize)
      modifies regs
      ensures Contents() == MadeFrame(ssSp, ssSize, pfn, s, s1)
      ensures regs[7] == s && regs[8] == s1 && regs[9] == pfn
      ensures (regs[13] + 8) % 16 == 0 && ssSp + ssSize - 24 < regs[13] <= ssSp + ssSize - 8
      ensures forall k :: 0 <= k < 14 && k !in {7, 8, 9, 13} ==> regs[k] == 0
    {
      var sp := ssSp + ssSize;
      sp := sp - sp % 16;
      ClearRegs();
      regs[RSP_SLOT] := sp - 8;
      regs[RET_SLOT] := pfn;
      regs[RDI_SLOT] := s;
      regs[RSI_SLOT] := s1;
    }

    method Init()
      requires Valid()
      modifies this, regs
      ensures Valid() && Contents() == ZeroFrame() && ssSize == 0 && ssSp == 0
    {
      ClearRegs();
      ssSize := 0;
      ssSp := 0;
    }
  }

  /** psABI sections 3.2.2 and 3.2.3: at the entry of a function (rsp + 8) is a multiple of 16,
      and rdi and rsi hold its first two arguments. */
  ghost predicate Entered(c: Cpu, pfn: Word, s: Word, s1: Word) {
    && c.rip == pfn && Get(c.regs, RDI) == s && Get(c.regs, RSI) == s1
    && (Get(c.regs, RSP) + 8) % 16 == 0
  }

  /** A stack pointer at which the whole stack, but for less than 24 bytes, lies below. */
  predicate AtTheEnd(base: int, size: int, rsp: int) {
    base + size - 24 < rsp <= base + size - 8
  }

  lemma FreshFrameEnters(c: Cpu, c': Cpu, curr: int, base: int, size: int, pfn: Word, s: Word, s1: Word)
    requires Stack(base, size) && Swapped(c, c', curr, MadeFrame(base, size, pfn, s, s1))
    ensures Entered(c', pfn, s, s1)
    ensures AtTheEnd(base, size, Get(c'.regs, RSP))
  {
    var f := MadeFrame(base, size, pfn, s, s1);
    assert f[SlotOf(RDI)] == s && f[SlotOf(RSI)] == s1;
  }

  /** The first swap into a context that Coctx_make has built enters `pfn` with all of the stack
      below the stack pointer, and the word that it writes lies just below it. */
  lemma FreshEntry(c: Cpu, curr: int, next: int, base: int, size: int, pfn: Word, s: Word, s1: Word)
    requires SwapCall(c, curr, next) && Stack(base, size)
    requires ReadFrame(c.mem, next) == MadeFrame(base, size, pfn, s, s1)
    ensures var c' := Run(CoctxSwap(), c);
            && Entered(c', pfn, s, s1)
            && AtTheEnd(base, size, Get(c'.regs, RSP))
            && Footprint(c.mem, c'.mem, curr, Get(c'.regs, RSP) - 8)
  {
    SwapSwitches(c, curr, next);
    FreshFrameEnters(c, Run(CoctxSwap(), c), curr, base, size, pfn, s, s1);
  }
}
