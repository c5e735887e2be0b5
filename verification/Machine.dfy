/** The part of an x86-64 that `coctx_swap.S` uses: general registers and word memory.

    Memory is accessed in 8-byte words at 8-byte aligned addresses. */
module Machine {

  const WORDS := 0x1_0000_0000_0000_0000

  type Word = w: int | 0 <= w < WORDS witness 0

  predicate Aligned(a: int) {
    a % 8 == 0
  }

  datatype Reg = RAX | RBX | RCX | RDX | RSI | RDI | RBP | RSP | R8 | R9 | R10 | R11 | R12 | R13 | R14 | R15

  /** The general registers; one that was never set reads as zero. */
  type Regs = map<Reg, Word>

  function Get(s: Regs, r: Reg): Word {
    if r in s then s[r] else 0
  }

  /** Words by address; what was never stored reads as zero. */
  type Memory = map<int, Word>

  function Load(m: Memory, a: int): Word {
    if a in m then m[a] else 0
  }

  /** `rip` is where control goes when a `ret` has been executed. */
  datatype Cpu = Cpu(regs: Regs, rip: Word, mem: Memory)

  /** A displacement is a signed 32-bit constant. */
  type Disp = d: int | -0x8000_0000 <= d < 0x8000_0000

  /** 64-bit addition wraps around. */
  function Plus(a: Word, d: Disp): Word {
    if a + d < 0 then a + d + WORDS else if a + d >= WORDS then a + d - WORDS else a + d
  }

  datatype Instr =
    | Lea(disp: Disp, base: Reg, dst: Reg) // leaq disp(base), dst
    | Push(src: Reg)                      // pushq src
    | PushAt(disp: Disp, base: Reg)        // pushq disp(base)
    | Pop(dst: Reg)                       // popq dst
    | Mov(src: Reg, dst: Reg)             // movq src, dst
    | Clear(dst: Reg)                     // xorl dst, dst
    | Ret

  function PushWord(c: Cpu, v: Word): Cpu {
    var rsp := Plus(Get(c.regs, RSP), -8);
    c.(regs := c.regs[RSP := rsp], mem := c.mem[rsp := v])
  }

  /** popq increments rsp before it writes its destination, which may be rsp itself. */
  function Step(i: Instr, c: Cpu): Cpu {
    match i
    case Lea(disp, base, dst) => c.(regs := c.regs[dst := Plus(Get(c.regs, base), disp)])
    case Push(src) => PushWord(c, Get(c.regs, src))
    case PushAt(disp, base) => PushWord(c, Load(c.mem, Plus(Get(c.regs, base), disp)))
    case Pop(dst) => c.(regs := c.regs[RSP := Plus(Get(c.regs, RSP), 8)][dst := Load(c.mem, Get(c.regs, RSP))])
    case Mov(src, dst) => c.(regs := c.regs[dst := Get(c.regs, src)])
    case Clear(dst) => c.(regs := c.regs[dst := 0])
    case Ret => c.(regs := c.regs[RSP := Plus(Get(c.regs, RSP), 8)], rip := Load(c.mem, Get(c.regs, RSP)))
  }

  function Run(p: seq<Instr>, c: Cpu): Cpu {
    if p == [] then c else Run(p[1..], Step(p[0], c))
  }

  lemma {:induction false} RunConcat(p: seq<Instr>, q: seq<Instr>, c: Cpu)
    ensures Run(p + q, c) == Run(q, Run(p, c))
  {
    if p == [] {
      assert p + q == q;
    } else {
      RunConcat(p[1..], q, Step(p[0], c));
      assert (p + q)[1..] == p[1..] + q;
    }
  }

  // Runs of pushes and pops

  function Pushes(rs: seq<Reg>): (p: seq<Instr>)
    ensures |p| == |rs| && forall i :: 0 <= i < |rs| ==> p[i] == Push(rs[i])
  {
    if rs == [] then [] else [Push(rs[0])] + Pushes(rs[1..])
  }

  function Pops(rs: seq<Reg>): (p: seq<Instr>)
    ensures |p| == |rs| && forall i :: 0 <= i < |rs| ==> p[i] == Pop(rs[i])
  {
    if rs == [] then [] else [Pop(rs[0])] + Pops(rs[1..])
  }

  /** Memory `m'` is `m` except for aligned addresses in [lo, hi). */
  ghost predicate SameOutside(m: Memory, m': Memory, lo: int, hi: int) {
    forall a :: Aligned(a) && !(lo <= a < hi) ==> Load(m', a) == Load(m, a)
  }

  /** The registers are the same but for those in `x`. */
  ghost predicate SameBut(s: Regs, s': Regs, x: set<Reg>) {
    forall r :: r !in x ==> Get(s', r) == Get(s, r)
  }

  /** From `c` to `c'` the registers `rs` have been stored below `top`, the first one on top. */
  ghost predicate Pushed(rs: seq<Reg>, top: int, c: Cpu, c': Cpu) {
    && Get(c'.regs, RSP) == top - 8 * |rs| && SameBut(c.regs, c'.regs, {RSP}) && c'.rip == c.rip
    && (forall k :: 0 <= k < |rs| ==> Load(c'.mem, top - 8 * (k + 1)) == Get(c.regs, rs[k]))
    && SameOutside(c.mem, c'.mem, top - 8 * |rs|, top)
  }

  lemma {:induction false} PushesStore(rs: seq<Reg>, top: int, c: Cpu)
    requires RSP !in rs && 8 * |rs| <= top == Get(c.regs, RSP) && Aligned(top)
    ensures Pushed(rs, top, c, Run(Pushes(rs), c))
  {
    if rs == [] {
    } else {
      assert rs[0] in rs;
      var c1 := Step(Push(rs[0]), c);
      PushesStore(rs[1..], top - 8, c1);
      PushedFirst(rs, top, c, c1, Run(Pushes(rs[1..]), c1));
    }
  }

  lemma PushedFirst(rs: seq<Reg>, top: int, c: Cpu, c1: Cpu, c': Cpu)
    requires rs != [] && RSP !in rs && 8 * |rs| <= top == Get(c.regs, RSP) && Aligned(top)
    requires c1 == PushWord(c, Get(c.regs, rs[0])) && Pushed(rs[1..], top - 8, c1, c')
    ensures Pushed(rs, top, c, c')
  {
    forall k | 0 <= k < |rs|
      ensures Load(c'.mem, top - 8 * (k + 1)) == Get(c.regs, rs[k])
    {
      assert rs[k] in rs;
      if k > 0 {
        assert Load(c'.mem, top - 8 - 8 * k) == Get(c1.regs, rs[1..][k - 1]);
      }
    }
  }

  /** From `c` to `c'` the registers `rs` have been loaded from `base` upwards. */
  ghost predicate Popped(rs: seq<Reg>, base: int, c: Cpu, c': Cpu) {
    && Get(c'.regs, RSP) == base + 8 * |rs| && c'.mem == c.mem && c'.rip == c.rip
    && (forall k :: 0 <= k < |rs| ==> Get(c'.regs, rs[k]) == Load(c.mem, base + 8 * k))
    && (forall r :: r !in rs && r != RSP ==> Get(c'.regs, r) == Get(c.regs, r))
  }

  lemma {:induction false} PopsLoad(rs: seq<Reg>, base: int, c: Cpu)
    requires RSP !in rs && base == Get(c.regs, RSP) && base + 8 * |rs| < WORDS
    requires forall i, j :: 0 <= i < j < |rs| ==> rs[i] != rs[j]
    ensures Popped(rs, base, c, Run(Pops(rs), c))
  {
    if rs == [] {
    } else {
      assert rs[0] in rs;
      var c1 := Step(Pop(rs[0]), c);
      PopsLoad(rs[1..], base + 8, c1);
      PoppedFirst(rs, base, c, c1, Run(Pops(rs[1..]), c1));
    }
  }

  lemma PoppedFirst(rs: seq<Reg>, base: int, c: Cpu, c1: Cpu, c': Cpu)
    requires rs != [] && rs[0] != RSP && rs[0] !in rs[1..] && base == Get(c.regs, RSP)
    requires c1 == c.(regs := c.regs[RSP := Plus(base, 8)][rs[0] := Load(c.mem, base)])
             && Popped(rs[1..], base + 8, c1, c')
    ensures Popped(rs, base, c, c')
  {
    forall k | 0 <= k < |rs|
      ensures Get(c'.regs, rs[k]) == Load(c.mem, base + 8 * k)
    {
      if k > 0 {
        assert Get(c'.regs, rs[1..][k - 1]) == Load(c1.mem, base + 8 + 8 * (k - 1));
      }
    }
  }
}
