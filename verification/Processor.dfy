/** The machine as an object whose registers and memory the instructions update. */
module Processor {
  import opened Machine
  import opened ContextSwap

  class Processor {
    var regs: Regs
    var rip: Word
    var mem: Memory

    function State(): Cpu
      reads this
    {
      Cpu(regs, rip, mem)
    }

    constructor (c: Cpu)
      ensures State() == c
    {
      regs, rip, mem := c.regs, c.rip, c.mem;
    }

    method PushWord(v: Word)
      modifies this`regs, this`mem
      ensures State() == Machine.PushWord(old(State()), v)
    {
      var rsp := Plus(Get(regs, RSP), -8);
      regs := regs[RSP := rsp];
      mem := mem[rsp := v];
    }

    method PopWord() returns (v: Word)
      modifies this`regs
      ensures v == Load(mem, Get(old(regs), RSP)) && regs == old(regs)[RSP := Plus(Get(old(regs), RSP), 8)]
    {
      v := Load(mem, Get(regs, RSP));
      regs := regs[RSP := Plus(Get(regs, RSP), 8)];
    }

    method ExecuteOne(i: Instr)
      modifies this
      ensures State() == Step(i, old(State()))
    {
      match i
      case Lea(disp, base, dst) => regs := regs[dst := Plus(Get(regs, base), disp)];
      case Push(src) => PushWord(Get(regs, src));
      case PushAt(disp, base) => PushWord(Load(mem, Plus(Get(regs, base), disp)));
      case Pop(dst) =>
        var v := PopWord();
        regs := regs[dst := v];
      case Mov(src, dst) => regs := regs[dst := Get(regs, src)];
      case Clear(dst) => regs := regs[dst := 0];
      case Ret => rip := PopWord();
    }

    method Execute(p: seq<Instr>)
      modifies this
      ensures State() == Run(p, old(State()))
    {
      var i := 0;
      while i < |p|
        invariant 0 <= i <= |p|
        invariant Run(p[i..], State()) == Run(p, old(State()))
      {
        assert p[i..][0] == p[i] && p[i..][1..] == p[i + 1..];
        ExecuteOne(p[i]);
        i := i + 1;
      }
    }

    /** The call coctx_swap(curr, next): registers, memory and control after it, by SwapSwitches. */
    method SwapContexts(curr: Word, next: Word)
      requires SwapCall(State(), curr, next)
      modifies this
      ensures Swapped(old(State()), State(), curr, ReadFrame(old(mem), next))
    {
      SwapSwitches(State(), curr, next);
      Execute(CoctxSwap());
    }
  }
}
