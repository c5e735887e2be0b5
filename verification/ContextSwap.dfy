/** `coctx_swap`, x86-64 branch. */
module ContextSwap {
  import opened Machine

  // The instructions of coctx_swap, in order; a run of pushq or popq is given by its registers

  function SavedUpper(): seq<Reg> {
    [RAX, RBX, RCX, RDX]
  }

  function SavedLower(): seq<Reg> {
    [RSI, RDI, RBP, R8, R9, R12, R13, R14, R15]
  }

  function Loaded(): seq<Reg> {
    [R15, R14, R13, R12, R9, R8, RBP, RDI, RSI, RAX, RDX, RCX, RBX]
  }

  function Addresses(): seq<Instr> {
    [Lea(8, RSP, RAX), Lea(112, RDI, RSP)]
  }

  function SaveUpper(rs: seq<Reg>): seq<Instr> {
    (Addresses() + Pushes(rs)) + [PushAt(-8, RAX)]
  }

  function SaveLower(rs: seq<Reg>): seq<Instr> {
    Pushes(rs)
  }

  function LoadAll(rs: seq<Reg>): seq<Instr> {
    [Mov(RSI, RSP)] + Pops(rs)
  }

  function Return(): seq<Instr> {
    [Pop(RSP), Push(RAX), Clear(RAX), Ret]
  }

  function CoctxSwap(): seq<Instr> {
    Swap(SavedUpper(), SavedLower(), Loaded())
  }

  function Swap(upper: seq<Reg>, lower: seq<Reg>, loaded: seq<Reg>): seq<Instr> {
    (SaveUpper(upper) + SaveLower(lower)) + (LoadAll(loaded) + Return())
  }

  // Contexts: the regs[14] of a Coctx_t

  const SLOTS := 14
  const FRAME_BYTES := 112
  const RDI_SLOT := 7
  const RSI_SLOT := 8
  const RET_SLOT := 9
  const RSP_SLOT := 13

  type Frame = f: seq<Word> | |f| == SLOTS witness seq(SLOTS, _ => 0)

  /** Which slot is for `r`. Slot 9, where rax would be, holds the return address. */
  function SlotOf(r: Reg): int {
    match r
    case R15 => 0 case R14 => 1 case R13 => 2 case R12 => 3 case R9 => 4 case R8 => 5 case RBP => 6
    case RDI => RDI_SLOT case RSI => RSI_SLOT case RAX => RET_SLOT case RDX => 10 case RCX => 11 case RBX => 12
    case RSP => RSP_SLOT case R10 => -1 case R11 => -1
  }

  /** Registers with a slot of their own. */
  predicate IsSaved(r: Reg) {
    r != RAX && r != RSP && r != R10 && r != R11
  }

  /** The context at address `base`. */
  function ReadFrame(m: Memory, base: int): Frame {
    seq(SLOTS, k => Load(m, base + 8 * k))
  }

  /** What a routine needs to continue after it has called coctx_swap: its registers, the return
      address on top of its stack, and the stack pointer that the return leaves. */
  ghost predicate Suspends(c: Cpu, f: Frame) {
    && f[RET_SLOT] == Load(c.mem, Get(c.regs, RSP))
    && f[RSP_SLOT] == Plus(Get(c.regs, RSP), 8)
    && forall r :: IsSaved(r) ==> f[SlotOf(r)] == Get(c.regs, r)
  }

  /** `c` runs with the registers of the frame `f`, from its return address on; a routine sees
      coctx_swap return 0. */
  ghost predicate Continues(c: Cpu, f: Frame) {
    && c.rip == f[RET_SLOT]
    && Get(c.regs, RSP) == f[RSP_SLOT]
    && Get(c.regs, RAX) == 0
    && forall r :: IsSaved(r) ==> Get(c.regs, r) == f[SlotOf(r)]
  }

  /** The order of the pushes and pops, as slots: from regs[13] down, and from regs[0] up. */
  ghost predicate InOrder(upper: seq<Reg>, lower: seq<Reg>, loaded: seq<Reg>) {
    UpperInOrder(upper) && LowerInOrder(lower) && LoadedInOrder(loaded)
  }

  ghost predicate UpperInOrder(rs: seq<Reg>) {
    |rs| == 4 && rs[0] == RAX && forall k :: 1 <= k < 4 ==> SlotOf(rs[k]) == RSP_SLOT - k
  }

  ghost predicate LowerInOrder(rs: seq<Reg>) {
    |rs| == 9 && forall k :: 0 <= k < 9 ==> SlotOf(rs[k]) == RSI_SLOT - k
  }

  ghost predicate LoadedInOrder(rs: seq<Reg>) {
    |rs| == 13 && forall k :: 0 <= k < 13 ==> SlotOf(rs[k]) == k
  }

  lemma CoctxSwapInOrder()
    ensures InOrder(SavedUpper(), SavedLower(), Loaded())
  {
  }

  lemma SlotOfIsInjective(r: Reg, q: Reg)
    requires SlotOf(r) == SlotOf(q) >= 0
    ensures r == q
  {
  }

  // Save

  lemma AddressesRun(c: Cpu)
    requires Get(c.regs, RDI) + FRAME_BYTES < WORDS && Get(c.regs, RSP) + 8 < WORDS
    ensures Run(Addresses(), c) == c.(regs := c.regs[RAX := Get(c.regs, RSP) + 8][RSP := Get(c.regs, RDI) + 112])
  {
    var p := Addresses();
    assert p[1..] == [Lea(112, RDI, RSP)] && p[1..][1..] == [];
    assert Run(p[1..], Step(p[0], c)) == Step(p[1], Step(p[0], c));
  }

  /** A call of coctx_swap as far as the outgoing context is concerned. */
  ghost predicate SaveCall(c: Cpu) {
    var base, rsp := Get(c.regs, RDI), Get(c.regs, RSP);
    && Aligned(base) && Aligned(rsp) && base + FRAME_BYTES < WORDS && rsp + 8 < WORDS
    && !(base <= rsp < base + FRAME_BYTES)
  }

  /** Slots lo to hi - 1 of the context at `base` hold their registers. */
  ghost predicate SlotsHold(m: Memory, base: int, s: Regs, lo: int, hi: int) {
    forall r :: lo <= SlotOf(r) < hi ==> Load(m, base + 8 * SlotOf(r)) == Get(s, r)
  }

  /** The first four pushes fill regs[13] to regs[10], regs[13] with rax. */
  lemma UpperStored(rs: seq<Reg>, base: int, c: Cpu, c': Cpu)
    requires UpperInOrder(rs) && Pushed(rs, base + 112, c, c')
    ensures Load(c'.mem, base + 104) == Get(c.regs, RAX) && SlotsHold(c'.mem, base, c.regs, RET_SLOT + 1, RSP_SLOT)
  {
    assert Load(c'.mem, base + 112 - 8 * (0 + 1)) == Get(c.regs, rs[0]);
    forall r | RET_SLOT < SlotOf(r) < RSP_SLOT
      ensures Load(c'.mem, base + 8 * SlotOf(r)) == Get(c.regs, r)
    {
      var k := RSP_SLOT - SlotOf(r);
      SlotOfIsInjective(r, rs[k]);
      assert Load(c'.mem, base + 112 - 8 * (k + 1)) == Get(c.regs, rs[k]);
    }
  }

  /** The last nine fill regs[8] to regs[0]. */
  lemma LowerStored(rs: seq<Reg>, base: int, c: Cpu, c': Cpu)
    requires LowerInOrder(rs) && Pushed(rs, base + 72, c, c')
    ensures SlotsHold(c'.mem, base, c.regs, 0, RET_SLOT)
  {
    forall r | 0 <= SlotOf(r) < RET_SLOT
      ensures Load(c'.mem, base + 8 * SlotOf(r)) == Get(c.regs, r)
    {
      var k := RSI_SLOT - SlotOf(r);
      SlotOfIsInjective(r, rs[k]);
      assert Load(c'.mem, base + 72 - 8 * (k + 1)) == Get(c.regs, rs[k]);
    }
  }

  /** Up to the push of the return address into regs[9]. */
  ghost predicate UpperSaved(c: Cpu, c': Cpu, base: int) {
    && Get(c'.regs, RSP) == base + 72 && SameBut(c.regs, c'.regs, {RAX, RSP})
    && Load(c'.mem, base + 104) == Get(c.regs, RSP) + 8
    && Load(c'.mem, base + 72) == Load(c.mem, Get(c.regs, RSP))
    && SlotsHold(c'.mem, base, c.regs, RET_SLOT + 1, RSP_SLOT)
    && SameOutside(c.mem, c'.mem, base + 72, base + 112)
  }

  /** The states after the two leaq, the four pushes, and the push of the return address. */
  lemma UpperPath(rs: seq<Reg>, c: Cpu, c1: Cpu, c2: Cpu, c3: Cpu, base: int)
    requires SaveCall(c) && base == Get(c.regs, RDI)
    requires c1 == c.(regs := c.regs[RAX := Get(c.regs, RSP) + 8][RSP := base + 112])
    requires UpperInOrder(rs) && Pushed(rs, base + 112, c1, c2)
    requires c3.regs == c2.regs[RSP := base + 72] && c3.mem == c2.mem[base + 72 := Load(c2.mem, Get(c.regs, RSP))]
    ensures UpperSaved(c, c3, base)
  {
    UpperStored(rs, base, c1, c2);
    assert Load(c2.mem, Get(c.regs, RSP)) == Load(c.mem, Get(c.regs, RSP));
    forall r | r != RAX && r != RSP
      ensures Get(c3.regs, r) == Get(c.regs, r)
    {
      assert Get(c2.regs, r) == Get(c1.regs, r);
    }
  }

  lemma SaveUpperRun(rs: seq<Reg>, c: Cpu, c1: Cpu)
    requires Get(c.regs, RDI) + FRAME_BYTES < WORDS && Get(c.regs, RSP) + 8 < WORDS
    requires c1 == c.(regs := c.regs[RAX := Get(c.regs, RSP) + 8][RSP := Get(c.regs, RDI) + 112])
    ensures Run(SaveUpper(rs), c) == Step(PushAt(-8, RAX), Run(Pushes(rs), c1))
  {
    AddressesRun(c);
    RunConcat(Addresses(), Pushes(rs), c);
    RunConcat(Addresses() + Pushes(rs), [PushAt(-8, RAX)], c);
  }

  lemma SaveReturnStep(c: Cpu, top: int, rsp: int)
    requires 8 <= top == Get(c.regs, RSP) && Get(c.regs, RAX) == rsp + 8 && 0 <= rsp
    ensures var c' := Step(PushAt(-8, RAX), c);
            c'.regs == c.regs[RSP := top - 8] && c'.mem == c.mem[top - 8 := Load(c.mem, rsp)]
  {
  }

  lemma UpperStates(rs: seq<Reg>, c: Cpu, c1: Cpu, c2: Cpu, base: int)
    requires SaveCall(c) && base == Get(c.regs, RDI)
    requires c1 == c.(regs := c.regs[RAX := Get(c.regs, RSP) + 8][RSP := base + 112])
    requires UpperInOrder(rs) && Pushed(rs, base + 112, c1, c2)
    ensures UpperSaved(c, Step(PushAt(-8, RAX), c2), base)
  {
    assert Get(c2.regs, RAX) == Get(c1.regs, RAX);
    SaveReturnStep(c2, base + 80, Get(c.regs, RSP));
    UpperPath(rs, c, c1, c2, Step(PushAt(-8, RAX), c2), base);
  }

  lemma UpperPushes(rs: seq<Reg>, c1: Cpu, base: int)
    requires UpperInOrder(rs) && Get(c1.regs, RSP) == base + 112 && 0 <= base && Aligned(base)
    ensures Pushed(rs, base + 112, c1, Run(Pushes(rs), c1))
  {
    assert RSP !in rs;
    PushesStore(rs, base + 112, c1);
  }

  lemma UpperSaves(rs: seq<Reg>, c: Cpu, base: int)
    requires UpperInOrder(rs) && SaveCall(c) && base == Get(c.regs, RDI)
    ensures UpperSaved(c, Run(SaveUpper(rs), c), base)
  {
    var c1 := c.(regs := c.regs[RAX := Get(c.regs, RSP) + 8][RSP := base + 112]);
    SaveUpperRun(rs, c, c1);
    UpperPushes(rs, c1, base);
    UpperStates(rs, c, c1, Run(Pushes(rs), c1), base);
  }

  ghost predicate Saved(c: Cpu, c': Cpu, base: int) {
    && Suspends(c, ReadFrame(c'.mem, base))
    && SameOutside(c.mem, c'.mem, base, base + FRAME_BYTES)
    && SameBut(c.regs, c'.regs, {RAX, RSP})
  }

  lemma UpperSlotsKept(m: Memory, m': Memory, base: int, s: Regs)
    requires Aligned(base) && SlotsHold(m, base, s, RET_SLOT + 1, RSP_SLOT) && SameOutside(m, m', base, base + 72)
    ensures SlotsHold(m', base, s, RET_SLOT + 1, RSP_SLOT)
  {
  }

  lemma LowerSlotsHold(m: Memory, base: int, s: Regs, s1: Regs)
    requires SlotsHold(m, base, s1, 0, RET_SLOT) && SameBut(s, s1, {RAX, RSP})
    ensures SlotsHold(m, base, s, 0, RET_SLOT)
  {
  }

  lemma AllSlotsHold(m: Memory, base: int, s: Regs)
    requires SlotsHold(m, base, s, 0, RET_SLOT) && SlotsHold(m, base, s, RET_SLOT + 1, RSP_SLOT)
    ensures forall r :: IsSaved(r) ==> ReadFrame(m, base)[SlotOf(r)] == Get(s, r)
  {
  }

  lemma BothHalves(c: Cpu, c1: Cpu, c2: Cpu, base: int)
    requires SaveCall(c) && base == Get(c.regs, RDI) && UpperSaved(c, c1, base)
    requires SlotsHold(c2.mem, base, c1.regs, 0, RET_SLOT) && SameOutside(c1.mem, c2.mem, base, base + 72)
             && SameBut(c1.regs, c2.regs, {RSP})
    ensures Saved(c, c2, base)
  {
    UpperSlotsKept(c1.mem, c2.mem, base, c.regs);
    LowerSlotsHold(c2.mem, base, c.regs, c1.regs);
    AllSlotsHold(c2.mem, base, c.regs);
  }

  /** The 14 words of the outgoing context are filled, and nothing else is written. */
  lemma SaveSaves(upper: seq<Reg>, lower: seq<Reg>, c: Cpu, base: int)
    requires UpperInOrder(upper) && LowerInOrder(lower) && SaveCall(c) && base == Get(c.regs, RDI)
    ensures Saved(c, Run(SaveUpper(upper) + SaveLower(lower), c), base)
  {
    UpperSaves(upper, c, base);
    var c1 := Run(SaveUpper(upper), c);
    PushesStore(lower, base + 72, c1);
    var c2 := Run(SaveLower(lower), c1);
    LowerStored(lower, base, c1, c2);
    RunConcat(SaveUpper(upper), SaveLower(lower), c);
    BothHalves(c, c1, c2, base);
  }

  // Restore

  /** All of the frame is loaded but its stack pointer. */
  ghost predicate FrameLoaded(c: Cpu, c': Cpu, base: int, f: Frame) {
    && c'.mem == c.mem && Get(c'.regs, RSP) == base + 104 && Get(c'.regs, RAX) == f[RET_SLOT]
    && (forall r :: IsSaved(r) ==> Get(c'.regs, r) == f[SlotOf(r)])
  }

  lemma AllLoaded(rs: seq<Reg>, c: Cpu, c': Cpu, base: int)
    requires LoadedInOrder(rs) && Popped(rs, base, c, c')
    ensures FrameLoaded(c, c', base, ReadFrame(c.mem, base))
  {
    var f := ReadFrame(c.mem, base);
    forall r | IsSaved(r) || r == RAX
      ensures Get(c'.regs, r) == f[SlotOf(r)]
    {
      var k := SlotOf(r);
      SlotOfIsInjective(r, rs[k]);
      assert Get(c'.regs, rs[k]) == Load(c.mem, base + 8 * k);
    }
  }

  lemma LoadAllLoads(rs: seq<Reg>, c: Cpu, base: int)
    requires LoadedInOrder(rs) && base == Get(c.regs, RSI) && base + FRAME_BYTES < WORDS
    ensures FrameLoaded(c, Run(LoadAll(rs), c), base, ReadFrame(c.mem, base))
  {
    var c1 := Step(Mov(RSI, RSP), c);
    PopsLoad(rs, base, c1);
    assert LoadAll(rs)[1..] == Pops(rs);
    AllLoaded(rs, c1, Run(Pops(rs), c1), base);
  }

  /** The last four instructions: switch to the stack whose pointer is on top of the frame, and
      return to the address in rax. */
  ghost predicate Returned(c: Cpu, c': Cpu, rsp: int) {
    && Get(c'.regs, RSP) == rsp && Get(c'.regs, RAX) == 0 && SameBut(c.regs, c'.regs, {RAX, RSP})
    && c'.rip == Get(c.regs, RAX) && c'.mem == c.mem[rsp - 8 := Get(c.regs, RAX)]
  }

  lemma ReturnReturns(c: Cpu, rsp: int)
    requires 8 <= rsp == Load(c.mem, Get(c.regs, RSP))
    ensures Returned(c, Run(Return(), c), rsp)
  {
    var p := Return();
    var c1 := Step(Pop(RSP), c);
    var c2 := Step(Push(RAX), c1);
    var c3 := Step(Clear(RAX), c2);
    assert p[1..] == [Push(RAX), Clear(RAX), Ret] && p[2..] == [Clear(RAX), Ret] && p[3..] == [Ret] && p[4..] == [];
    assert Run(p, c) == Run(p[1..], c1) == Run(p[2..], c2) == Run(p[3..], c3) == Step(Ret, c3);
  }

  /** The incoming context is loaded, and one word is written: the return address, just below
      the stack pointer that was saved. */
  ghost predicate Restored(c: Cpu, c': Cpu, f: Frame) {
    Continues(c', f) && f[RSP_SLOT] >= 8 && c'.mem == c.mem[f[RSP_SLOT] - 8 := f[RET_SLOT]]
  }

  lemma LoadedReturned(c: Cpu, c1: Cpu, c': Cpu, base: int, f: Frame)
    requires 8 <= f[RSP_SLOT] && FrameLoaded(c, c1, base, f) && Returned(c1, c', f[RSP_SLOT])
    ensures Restored(c, c', f)
  {
    forall r | IsSaved(r)
      ensures Get(c'.regs, r) == f[SlotOf(r)]
    {
      assert Get(c'.regs, r) == Get(c1.regs, r);
    }
  }

  lemma RestoreRestores(rs: seq<Reg>, c: Cpu, base: int, f: Frame)
    requires LoadedInOrder(rs)
    requires base == Get(c.regs, RSI) && base + FRAME_BYTES < WORDS && f == ReadFrame(c.mem, base) && 8 <= f[RSP_SLOT]
    ensures Restored(c, Run(LoadAll(rs) + Return(), c), f)
  {
    LoadAllLoads(rs, c, base);
    var c1 := Run(LoadAll(rs), c);
    assert Load(c.mem, base + 8 * RSP_SLOT) == f[RSP_SLOT];
    ReturnReturns(c1, f[RSP_SLOT]);
    LoadedReturned(c, c1, Run(Return(), c1), base, f);
    RunConcat(LoadAll(rs), Return(), c);
  }

  // Swap

  lemma FrameElsewhere(m: Memory, m': Memory, base: int, lo: int, hi: int)
    requires SameOutside(m, m', lo, hi) && Aligned(base) && (base + FRAME_BYTES <= lo || hi <= base)
    ensures ReadFrame(m', base) == ReadFrame(m, base)
  {
  }

  lemma FrameKeptByStore(m: Memory, base: int, a: int, v: Word)
    requires !(base <= a < base + FRAME_BYTES)
    ensures ReadFrame(m[a := v], base) == ReadFrame(m, base)
  {
  }

  /** The call coctx_swap(rdi, rsi), with contexts that overlap neither each other nor the words
      that are read or written at the ends of the two stacks. */
  ghost predicate SwapCall(c: Cpu, curr: int, next: int) {
    var rsp := ReadFrame(c.mem, next)[RSP_SLOT];
    && curr == Get(c.regs, RDI) && next == Get(c.regs, RSI)
    && SaveCall(c) && Aligned(next) && next + FRAME_BYTES < WORDS && 8 <= rsp
    && (curr + FRAME_BYTES <= next || next + FRAME_BYTES <= curr)
    && !(curr <= rsp - 8 < curr + FRAME_BYTES)
  }

  /** Memory may differ in the context at `curr` and in the word at `a`. */
  ghost predicate Footprint(m: Memory, m': Memory, curr: int, a: int) {
    forall x :: Aligned(x) && !(curr <= x < curr + FRAME_BYTES) && x != a ==> Load(m', x) == Load(m, x)
  }

  /** What coctx_swap does: the outgoing routine's suspension is in its context, the incoming
      frame is in the registers, and memory has changed only in the outgoing context and in one
      word, which holds the return address. */
  ghost predicate Swapped(c: Cpu, c': Cpu, curr: int, f: Frame) {
    var rsp: int := f[RSP_SLOT];
    && Suspends(c, ReadFrame(c'.mem, curr)) && Continues(c', f)
    && Load(c'.mem, rsp - 8) == f[RET_SLOT]
    && Footprint(c.mem, c'.mem, curr, rsp - 8)
  }

  lemma SavedRestored(c: Cpu, c1: Cpu, c': Cpu, curr: int, f: Frame)
    requires Saved(c, c1, curr) && Restored(c1, c', f)
    requires !(curr <= f[RSP_SLOT] - 8 < curr + FRAME_BYTES)
    ensures Swapped(c, c', curr, f)
  {
    FrameKeptByStore(c1.mem, curr, f[RSP_SLOT] - 8, f[RET_SLOT]);
  }

  lemma SwapInOrder(upper: seq<Reg>, lower: seq<Reg>, loaded: seq<Reg>, c: Cpu, curr: int, next: int)
    requires InOrder(upper, lower, loaded) && SwapCall(c, curr, next)
    ensures Swapped(c, Run(Swap(upper, lower, loaded), c), curr, ReadFrame(c.mem, next))
  {
    SaveSaves(upper, lower, c, curr);
    var c1, f := Run(SaveUpper(upper) + SaveLower(lower), c), ReadFrame(c.mem, next);
    FrameElsewhere(c.mem, c1.mem, next, curr, curr + FRAME_BYTES);
    RestoreRestores(loaded, c1, next, f);
    RunConcat(SaveUpper(upper) + SaveLower(lower), LoadAll(loaded) + Return(), c);
    SavedRestored(c, c1, Run(LoadAll(loaded) + Return(), c1), curr, f);
  }

  lemma SwapSwitches(c: Cpu, curr: int, next: int)
    requires SwapCall(c, curr, next)
    ensures Swapped(c, Run(CoctxSwap(), c), curr, ReadFrame(c.mem, next))
  {
    CoctxSwapInOrder();
    SwapInOrder(SavedUpper(), SavedLower(), Loaded(), c, curr, next);
  }

  // The program without its instructions: for proofs about runs, in which they need not appear

  /** `p` saves and loads its registers in the order of the slots; that leaves one program, by
      OnlyCoctxSwap. */
  ghost predicate IsCoctxSwap(p: seq<Instr>) {
    exists upper, lower, loaded :: InOrder(upper, lower, loaded) && p == Swap(upper, lower, loaded)
  }

  lemma SameOrder(rs: seq<Reg>, qs: seq<Reg>)
    requires |rs| == |qs| && forall k :: 0 <= k < |rs| ==> SlotOf(rs[k]) == SlotOf(qs[k]) >= 0
    ensures rs == qs
  {
    forall k | 0 <= k < |rs|
      ensures rs[k] == qs[k]
    {
      SlotOfIsInjective(rs[k], qs[k]);
    }
  }

  lemma OneOrder(upper: seq<Reg>, lower: seq<Reg>, loaded: seq<Reg>, upper': seq<Reg>, lower': seq<Reg>,
          loaded': seq<Reg>)
    requires InOrder(upper, lower, loaded) && InOrder(upper', lower', loaded')
    ensures upper == upper' && lower == lower' && loaded == loaded'
  {
    SameOrder(upper, upper');
    SameOrder(lower, lower');
    SameOrder(loaded, loaded');
  }

  lemma OnlyCoctxSwap(p: seq<Instr>)
    ensures IsCoctxSwap(p) <==> p == CoctxSwap()
  {
    CoctxSwapInOrder();
    if IsCoctxSwap(p) {
      var upper, lower, loaded :| InOrder(upper, lower, loaded) && p == Swap(upper, lower, loaded);
      OneOrder(upper, lower, loaded, SavedUpper(), SavedLower(), Loaded());
    }
  }

  /** The same for a program that is only known to be coctx_swap. */
  lemma SwapSwitchesBy(p: seq<Instr>, c: Cpu, curr: int, next: int)
    requires IsCoctxSwap(p) && SwapCall(c, curr, next)
    ensures Swapped(c, Run(p, c), curr, ReadFrame(c.mem, next))
  {
    var upper, lower, loaded :| InOrder(upper, lower, loaded) && p == Swap(upper, lower, loaded);
    SwapInOrder(upper, lower, loaded, c, curr, next);
  }
}
