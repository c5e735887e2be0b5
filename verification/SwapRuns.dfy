/** Runs of routines on the machine: `Resume` and `yield_env` execute `coctx_swap`, and between
    two swaps the running routine executes code of its own. */
module SwapRuns {
  import opened Wrappers
  import opened Machine
  import opened ContextSwap
  import opened Coctx
  import opened Routines

  /** Where a Routine_t is: its ctx_.regs, its stack, and the object itself; and, on its stack, the
      word with revents_ of its local Channel. */
  datatype Region = Region(ctx: Word, base: int, size: int, self: Word, revents: int)

  /** The regions of all routines, the address of RoutineFunc, and the code of coctx_swap. */
  datatype World = World(at: map<Rid, Region>, entry: Word, code: seq<Instr>)

  predicate Disjoint(lo: int, hi: int, lo': int, hi': int) {
    hi <= lo' || hi' <= lo
  }

  predicate InStack(g: Region, a: int) {
    g.base <= a < g.base + g.size
  }

  /** The address of a word of the stack. */
  predicate StackWord(g: Region, a: int) {
    Aligned(a) && InStack(g, a)
  }

  predicate InContext(g: Region, a: int) {
    g.ctx <= a < g.ctx + FRAME_BYTES
  }

  predicate GoodRegion(g: Region) {
    && Aligned(g.ctx) && g.ctx + FRAME_BYTES < WORDS && Stack(g.base, g.size)
    && Disjoint(g.ctx, g.ctx + FRAME_BYTES, g.base, g.base + g.size)
    && StackWord(g, g.revents)
  }

  predicate Apart(g: Region, h: Region) {
    && Disjoint(g.ctx, g.ctx + FRAME_BYTES, h.ctx, h.ctx + FRAME_BYTES)
    && Disjoint(g.ctx, g.ctx + FRAME_BYTES, h.base, h.base + h.size)
    && Disjoint(g.base, g.base + g.size, h.ctx, h.ctx + FRAME_BYTES)
    && Disjoint(g.base, g.base + g.size, h.base, h.base + h.size)
  }

  ghost predicate WellPlaced(w: World) {
    && MAIN in w.at && IsCoctxSwap(w.code)
    && (forall r: Rid :: r in w.at ==> GoodRegion(w.at[r]))
    && (forall r: Rid, q: Rid :: r in w.at && q in w.at && r != q ==> Apart(w.at[r], w.at[q]))
  }

  datatype Sys = Sys(env: Env, cpu: Cpu)

  datatype Move =
    | Local(after: Cpu) // the running routine computes
    | Enter(r: Rid)     // and resumes r
    | Leave             // or yields

  /** The running routine may compute anything and store anywhere but into the contexts in use. In
      particular it may store into the stacks of the others. */
  ghost predicate LocalCode(w: World, s: Sys, after: Cpu) {
    forall q: Rid, a :: q in w.at && q in s.env.ready && Aligned(a) && InContext(w.at[q], a) ==>
      Load(after.mem, a) == Load(s.cpu.mem, a)
  }

  /** `curr` calls coctx_swap(&curr->ctx_, &next->ctx_) with its stack pointer in its own stack. */
  predicate CallsSwap(w: World, c: Cpu, curr: Rid, next: Rid) {
    var rsp := Get(c.regs, RSP);
    && curr in w.at && next in w.at
    && Get(c.regs, RDI) == w.at[curr].ctx && Get(c.regs, RSI) == w.at[next].ctx
    && Aligned(rsp) && w.at[curr].base <= rsp && rsp + 8 <= w.at[curr].base + w.at[curr].size
  }

  ghost predicate Enabled(w: World, s: Sys, a: Move) {
    && s.env.stack != []
    && match a
       case Local(after) => LocalCode(w, s, after)
       case Enter(r) => r !in s.env.stack && CallsSwap(w, s.cpu, Top(s.env), r)
       case Leave => |s.env.stack| > 1 && CallsSwap(w, s.cpu, Top(s.env), s.env.stack[|s.env.stack| - 2])
  }

  function WriteWords(m: Memory, base: int, ws: seq<Word>): Memory
    decreases ws
  {
    if ws == [] then m else WriteWords(m[base := ws[0]], base + 8, ws[1..])
  }

  /** Resume makes the context of a routine that has not been started. */
  function Prepared(w: World, s: Sys, r: Rid): Cpu
    requires r in w.at && Stack(w.at[r].base, w.at[r].size)
  {
    if r in s.env.made then s.cpu else
    var g := w.at[r];
    s.cpu.(mem := WriteWords(s.cpu.mem, g.ctx, MadeFrame(g.base, g.size, w.entry, g.self, 0)))
  }

  ghost function Exec(w: World, s: Sys, a: Move): Outcome<Sys>
    requires WellPlaced(w) && Enabled(w, s, a)
  {
    match a
    case Local(after) => Ok(s.(cpu := after))
    case Enter(r) =>
      var env :- Resume(s.env, r);
      Ok(Sys(env, Run(w.code, Prepared(w, s, r))))
    case Leave =>
      var env :- Yield(s.env);
      Ok(Sys(env, Run(w.code, s.cpu)))
  }

  // Invariant

  /** A saved stack pointer: one return address below it, inside the stack. */
  predicate GoodPointer(g: Region, rsp: int) {
    Aligned(rsp) && g.base + 8 <= rsp <= g.base + g.size
  }

  /** The context of a suspended routine. */
  ghost predicate Parked(g: Region, m: Memory) {
    GoodPointer(g, ReadFrame(m, g.ctx)[RSP_SLOT])
  }

  ghost predicate Inv(w: World, s: Sys) {
    && WellPlaced(w) && Disciplined(s.env)
    && (forall r: Rid :: r in s.env.made ==> r in w.at)
    && (forall r: Rid :: r in s.env.ready ==> r in w.at && Parked(w.at[r], s.cpu.mem))
  }

  lemma InitInv(w: World, c: Cpu)
    requires WellPlaced(w)
    ensures Inv(w, Sys(INITIAL, c))
  {
    InitiallyDisciplined();
  }

  // One swap

  lemma {:induction false} WriteWordsWrites(m: Memory, base: int, ws: seq<Word>)
    ensures var m' := WriteWords(m, base, ws);
            && (forall k :: 0 <= k < |ws| ==> Load(m', base + 8 * k) == ws[k])
            && (forall a :: !(base <= a < base + 8 * |ws|) ==> Load(m', a) == Load(m, a))
    decreases ws
  {
    if ws == [] {
    } else {
      var m1, tail := m[base := ws[0]], ws[1..];
      WriteWordsWrites(m1, base + 8, tail);
      var m' := WriteWords(m1, base + 8, tail);
      forall k | 0 <= k < |ws|
        ensures Load(m', base + 8 * k) == ws[k]
      {
        if k > 0 {
          assert Load(m', base + 8 + 8 * (k - 1)) == tail[k - 1];
        }
      }
    }
  }

  /** Outside the outgoing context and one word of the incoming stack, nothing changes. */
  lemma OthersKept(g: Region, m: Memory, m': Memory, curr: Region, next: Region, a: int)
    requires GoodRegion(g) && Apart(g, curr) && Apart(g, next) && InStack(next, a) && Footprint(m, m', curr.ctx, a)
    ensures ReadFrame(m', g.ctx) == ReadFrame(m, g.ctx)
    ensures forall x :: StackWord(g, x) ==> Load(m', x) == Load(m, x)
  {
  }

  /** A swap between two routines of the world. */
  lemma SwapBetween(w: World, c: Cpu, curr: Rid, next: Rid)
    requires WellPlaced(w) && curr != next && CallsSwap(w, c, curr, next)
    requires GoodPointer(w.at[next], ReadFrame(c.mem, w.at[next].ctx)[RSP_SLOT])
    ensures Swapped(c, Run(w.code, c), w.at[curr].ctx, ReadFrame(c.mem, w.at[next].ctx))
  {
    assert Apart(w.at[curr], w.at[next]);
    SwapSwitchesBy(w.code, c, w.at[curr].ctx, w.at[next].ctx);
  }

  /** The outgoing routine is parked, with its stack as it was. */
  lemma OutgoingParked(curr: Region, next: Region, c: Cpu, c': Cpu, f: Frame)
    requires GoodRegion(curr) && Apart(curr, next) && GoodPointer(next, f[RSP_SLOT]) && Swapped(c, c', curr.ctx, f)
    requires Aligned(Get(c.regs, RSP)) && curr.base <= Get(c.regs, RSP) && Get(c.regs, RSP) + 8 <= curr.base + curr.size
    ensures Parked(curr, c'.mem)
    ensures forall x :: StackWord(curr, x) ==> Load(c'.mem, x) == Load(c.mem, x)
  {
  }

  /** From `c` to `c'` control has passed from `curr` to `next`, whose frame was `f`. */
  ghost predicate Switched(w: World, c: Cpu, c': Cpu, curr: Rid, next: Rid, f: Frame)
    requires WellPlaced(w) && curr in w.at && next in w.at
  {
    && Swapped(c, c', w.at[curr].ctx, f) && Parked(w.at[curr], c'.mem)
    && (forall q: Rid, x :: q in w.at && q != next && StackWord(w.at[q], x) ==>
          Load(c'.mem, x) == Load(c.mem, x))
    && (forall q: Rid :: q in w.at && q != curr && q != next ==>
           ReadFrame(c'.mem, w.at[q].ctx) == ReadFrame(c.mem, w.at[q].ctx))
  }

  lemma SwapSwitchesRoutines(w: World, c: Cpu, curr: Rid, next: Rid, f: Frame)
    requires WellPlaced(w) && curr != next && CallsSwap(w, c, curr, next)
    requires f == ReadFrame(c.mem, w.at[next].ctx) && GoodPointer(w.at[next], f[RSP_SLOT])
    ensures Switched(w, c, Run(w.code, c), curr, next, f)
  {
    SwapBetween(w, c, curr, next);
    var c' := Run(w.code, c);
    assert Apart(w.at[curr], w.at[next]);
    OutgoingParked(w.at[curr], w.at[next], c, c', f);
    forall q: Rid | q in w.at && q != curr && q != next
      ensures ReadFrame(c'.mem, w.at[q].ctx) == ReadFrame(c.mem, w.at[q].ctx)
      ensures forall x :: StackWord(w.at[q], x) ==> Load(c'.mem, x) == Load(c.mem, x)
    {
      OthersKept(w.at[q], c.mem, c'.mem, w.at[curr], w.at[next], f[RSP_SLOT] - 8);
    }
  }

  /** The regions other than the context of `r` are the same, and so are the registers. */
  ghost predicate Untouched(w: World, c: Cpu, c': Cpu, r: Rid) {
    && c'.regs == c.regs
    && (forall q: Rid, x :: q in w.at && StackWord(w.at[q], x) ==> Load(c'.mem, x) == Load(c.mem, x))
    && (forall q: Rid :: q in w.at && q != r ==> ReadFrame(c'.mem, w.at[q].ctx) == ReadFrame(c.mem, w.at[q].ctx))
  }

  lemma PreparedKeeps(w: World, s: Sys, r: Rid)
    requires WellPlaced(w) && r in w.at
    ensures Untouched(w, s.cpu, Prepared(w, s, r), r)
  {
    if r !in s.env.made {
      var g := w.at[r];
      WriteWordsWrites(s.cpu.mem, g.ctx, MadeFrame(g.base, g.size, w.entry, g.self, 0));
      var c := Prepared(w, s, r);
      forall q: Rid | q in w.at
        ensures forall x :: StackWord(w.at[q], x) ==> Load(c.mem, x) == Load(s.cpu.mem, x)
        ensures q != r ==> ReadFrame(c.mem, w.at[q].ctx) == ReadFrame(s.cpu.mem, w.at[q].ctx)
      {
        assert q != r ==> Apart(w.at[q], g);
      }
    }
  }

  lemma MadePointer(g: Region, entry: Word)
    requires Stack(g.base, g.size)
    ensures GoodPointer(g, MadeFrame(g.base, g.size, entry, g.self, 0)[RSP_SLOT])
  {
    TopIsAligned(g.base + g.size);
  }

  lemma TopIsAligned(end: int)
    ensures Aligned(end - end % 16 - 8)
  {
    assert end - end % 16 - 8 == 8 * (2 * (end / 16) - 1);
  }

  lemma PreparedFrame(w: World, s: Sys, r: Rid)
    requires WellPlaced(w) && r in w.at && r !in s.env.made
    ensures var g := w.at[r];
            ReadFrame(Prepared(w, s, r).mem, g.ctx) == MadeFrame(g.base, g.size, w.entry, g.self, 0)
    ensures GoodPointer(w.at[r], MadeFrame(w.at[r].base, w.at[r].size, w.entry, w.at[r].self, 0)[RSP_SLOT])
  {
    var g := w.at[r];
    MadePointer(g, w.entry);
    FrameWritten(s.cpu.mem, g.ctx, MadeFrame(g.base, g.size, w.entry, g.self, 0));
  }

  lemma FrameWritten(m: Memory, base: int, f: Frame)
    ensures ReadFrame(WriteWords(m, base, f), base) == f
  {
    WriteWordsWrites(m, base, f);
  }

  // Steps

  /** A swap step from `s` to `s'`: `next` runs instead of the routine on top, which called
      coctx_swap in the state `c`. */
  ghost predicate Handover(w: World, s: Sys, c: Cpu, next: Rid, s': Sys)
    requires WellPlaced(w) && s.env.stack != []
  {
    var curr := Top(s.env);
    && curr in w.at && next in w.at && curr != next
    && Aligned(Get(s.cpu.regs, RSP)) && InStack(w.at[curr], Get(s.cpu.regs, RSP))
    && Disciplined(s'.env) && Top(s'.env) == next && s.env.made <= s'.env.made <= s.env.made + {next}
    && Untouched(w, s.cpu, c, next) && (next in s.env.made + {MAIN} ==> c == s.cpu)
    && GoodPointer(w.at[next], ReadFrame(c.mem, w.at[next].ctx)[RSP_SLOT])
    && Switched(w, c, s'.cpu, curr, next, ReadFrame(c.mem, w.at[next].ctx))
  }

  lemma EnterStep(w: World, s: Sys, r: Rid)
    requires Inv(w, s) && Enabled(w, s, Enter(r)) && |s.env.stack| < CAPACITY
    ensures Exec(w, s, Enter(r)).Ok? && Handover(w, s, Prepared(w, s, r), r, Exec(w, s, Enter(r)).value)
  {
    var curr, c := Top(s.env), Prepared(w, s, r);
    ResumeDisciplined(s.env, r);
    PreparedKeeps(w, s, r);
    if r in s.env.made {
      assert r in s.env.ready;
    } else {
      PreparedFrame(w, s, r);
    }
    SwapSwitchesRoutines(w, c, curr, r, ReadFrame(c.mem, w.at[r].ctx));
  }

  lemma LeaveStep(w: World, s: Sys)
    requires Inv(w, s) && Enabled(w, s, Leave)
    ensures Exec(w, s, Leave).Ok? && Handover(w, s, s.cpu, s.env.stack[|s.env.stack| - 2], Exec(w, s, Leave).value)
  {
    var curr, next := Top(s.env), s.env.stack[|s.env.stack| - 2];
    YieldDisciplined(s.env);
    assert next in s.env.ready;
    SwapSwitchesRoutines(w, s.cpu, curr, next, ReadFrame(s.cpu.mem, w.at[next].ctx));
  }

  /** All other routines stay as they are, and so does the stack of the one that called. */
  lemma BystanderKept(w: World, s: Sys, c: Cpu, next: Rid, s': Sys, r: Rid)
    requires WellPlaced(w) && s.env.stack != [] && Handover(w, s, c, next, s') && r in w.at && r != next
    ensures r != Top(s.env) ==> ReadFrame(s'.cpu.mem, w.at[r].ctx) == ReadFrame(s.cpu.mem, w.at[r].ctx)
    ensures forall x :: StackWord(w.at[r], x) ==> Load(s'.cpu.mem, x) == Load(s.cpu.mem, x)
  {
  }

  lemma HandoverKeeps(w: World, s: Sys, c: Cpu, next: Rid, s': Sys)
    requires Inv(w, s) && Handover(w, s, c, next, s')
    ensures Inv(w, s')
  {
    forall r: Rid | r in s'.env.ready
      ensures r in w.at && Parked(w.at[r], s'.cpu.mem)
    {
      assert r != next;
      if r != Top(s.env) {
        assert r in s.env.ready;
        BystanderKept(w, s, c, next, s', r);
      }
    }
  }

  /** The running routine leaves the context of a suspended one alone. */
  lemma LocalKeeps(w: World, s: Sys, after: Cpu, r: Rid)
    requires LocalCode(w, s, after) && r in s.env.ready && r in w.at && Aligned(w.at[r].ctx)
    ensures ReadFrame(after.mem, w.at[r].ctx) == ReadFrame(s.cpu.mem, w.at[r].ctx)
  {
    forall k | 0 <= k < SLOTS
      ensures Load(after.mem, w.at[r].ctx + 8 * k) == Load(s.cpu.mem, w.at[r].ctx + 8 * k)
    {
      assert InContext(w.at[r], w.at[r].ctx + 8 * k);
    }
  }

  lemma LocalStepKeeps(w: World, s: Sys, after: Cpu)
    requires Inv(w, s) && LocalCode(w, s, after)
    ensures Inv(w, s.(cpu := after))
  {
    forall r: Rid | r in s.env.ready
      ensures Parked(w.at[r], after.mem)
    {
      LocalKeeps(w, s, after, r);
    }
  }

  /** A step fails exactly when CallStack_ is full; otherwise the invariant is kept. */
  lemma StepKeeps(w: World, s: Sys, a: Move)
    requires Inv(w, s) && Enabled(w, s, a)
    ensures Exec(w, s, a).Fault? <==> a.Enter? && |s.env.stack| == 128
    ensures Exec(w, s, a).Ok? ==> Inv(w, Exec(w, s, a).value)
  {
    match a
    case Local(after) =>
      LocalStepKeeps(w, s, after);
    case Enter(r) =>
      if |s.env.stack| < CAPACITY {
        EnterStep(w, s, r);
        HandoverKeeps(w, s, Prepared(w, s, r), r, Exec(w, s, a).value);
      }
    case Leave =>
      LeaveStep(w, s);
      HandoverKeeps(w, s, s.cpu, s.env.stack[|s.env.stack| - 2], Exec(w, s, a).value);
  }

  // The round trip

  /** `r` has called coctx_swap in the state `c0` and not run since. */
  ghost predicate Suspended(w: World, r: Rid, c0: Cpu, s: Sys) {
    r in s.env.ready && r in w.at && Suspends(c0, ReadFrame(s.cpu.mem, w.at[r].ctx))
  }

  /** The routine that called coctx_swap in the state `c0` continues at the return address of that
      call, which is on its stack as it was, with the registers it had then. */
  ghost predicate Resumed(c0: Cpu, c: Cpu) {
    var rsp := Get(c0.regs, RSP);
    && c.rip == Load(c0.mem, rsp) && Get(c.regs, RSP) == Plus(rsp, 8)
    && (forall q :: IsSaved(q) ==> Get(c.regs, q) == Get(c0.regs, q))
    && Load(c.mem, rsp) == Load(c0.mem, rsp)
  }

  lemma SameSuspension(c: Cpu, c': Cpu, f: Frame)
    requires Suspends(c', f) && c'.regs == c.regs && Load(c'.mem, Get(c.regs, RSP)) == Load(c.mem, Get(c.regs, RSP))
    ensures Suspends(c, f)
  {
  }

  lemma HandoverSuspends(w: World, s: Sys, c: Cpu, next: Rid, s': Sys)
    requires Inv(w, s) && Handover(w, s, c, next, s')
    ensures Suspended(w, Top(s.env), s.cpu, s')
  {
    SameSuspension(s.cpu, c, ReadFrame(s'.cpu.mem, w.at[Top(s.env)].ctx));
  }

  lemma HandoverKeepsSuspended(w: World, r: Rid, c0: Cpu, s: Sys, c: Cpu, next: Rid, s': Sys)
    requires Inv(w, s) && Handover(w, s, c, next, s') && Suspended(w, r, c0, s) && next != r
    ensures Suspended(w, r, c0, s')
  {
    BystanderKept(w, s, c, next, s', r);
  }

  lemma SwapResumes(c0: Cpu, c: Cpu, c': Cpu, curr: int, f: Frame)
    requires Suspends(c0, f) && Swapped(c, c', curr, f) && 8 <= f[RSP_SLOT]
    ensures Resumed(c0, c') && f[RSP_SLOT] - 8 == Get(c0.regs, RSP)
  {
  }

  /** The word below the stack pointer with which `next` is to continue. */
  function ReturnWord(g: Region, m: Memory): int {
    ReadFrame(m, g.ctx)[RSP_SLOT] as int - 8
  }

  /** Only a routine that has not run before gets a new context. */
  lemma ReadyUntouched(w: World, s: Sys, c: Cpu, r: Rid, s': Sys)
    requires Inv(w, s) && Handover(w, s, c, r, s') && r in s.env.ready
    ensures c == s.cpu
  {
  }

  lemma HandoverResumes(w: World, c0: Cpu, s: Sys, c: Cpu, r: Rid, s': Sys)
    requires Inv(w, s) && Handover(w, s, c, r, s') && Suspended(w, r, c0, s)
    ensures Resumed(c0, s'.cpu) && ReturnWord(w.at[r], s.cpu.mem) == Get(c0.regs, RSP)
  {
    ReadyUntouched(w, s, c, r, s');
    SwapResumes(c0, c, s'.cpu, w.at[Top(s.env)].ctx, ReadFrame(c.mem, w.at[r].ctx));
  }

  /** A swap changes at most one word of all stacks: the return word of the incoming routine. */
  lemma HandoverKeepsWord(w: World, s: Sys, c: Cpu, next: Rid, s': Sys, r: Rid, x: int)
    requires Inv(w, s) && Handover(w, s, c, next, s') && r in w.at && StackWord(w.at[r], x)
    requires r == next ==> x != ReturnWord(w.at[r], c.mem)
    ensures Load(s'.cpu.mem, x) == Load(s.cpu.mem, x)
  {
    if r == next {
      assert Apart(w.at[r], w.at[Top(s.env)]);
    }
  }

  /** Outside the outgoing context a swap changes at most the word at `a`, the return word of the
      incoming routine, which receives the return address. */
  ghost predicate Rewrites(m: Memory, m': Memory, curr: Region, next: Region, a: int) {
    && StackWord(next, a) && !InContext(curr, a)
    && Load(m', a) == ReadFrame(m, next.ctx)[RET_SLOT] && Footprint(m, m', curr.ctx, a)
  }

  ghost predicate OnlyContext(m: Memory, m': Memory, curr: Region) {
    forall x :: Aligned(x) && !InContext(curr, x) ==> Load(m', x) == Load(m, x)
  }

  lemma RewritesNothing(m: Memory, m': Memory, curr: Region, next: Region, a: int)
    requires Rewrites(m, m', curr, next, a)
    ensures OnlyContext(m, m', curr) <==> Load(m, a) == ReadFrame(m, next.ctx)[RET_SLOT]
  {
  }

  lemma WordBelow(g: Region, rsp: int, a: int)
    requires GoodPointer(g, rsp) && a == rsp - 8
    ensures StackWord(g, a)
  {
  }

  lemma SwapRewrites(curr: Region, next: Region, c: Cpu, c': Cpu, a: int)
    requires Apart(next, curr) && StackWord(next, a) && a == ReturnWord(next, c.mem)
    requires Swapped(c, c', curr.ctx, ReadFrame(c.mem, next.ctx))
    ensures Rewrites(c.mem, c'.mem, curr, next, a)
  {
  }

  lemma HandoverWrites(w: World, s: Sys, c: Cpu, r: Rid, s': Sys, curr: Region, next: Region)
    requires WellPlaced(w) && s.env.stack != [] && Handover(w, s, c, r, s')
    requires curr == w.at[Top(s.env)] && next == w.at[r]
    ensures Rewrites(c.mem, s'.cpu.mem, curr, next, ReturnWord(next, c.mem))
  {
    HandoverSwaps(w, s, c, r, s', curr, next);
    SwapRewrites(curr, next, c, s'.cpu, ReturnWord(next, c.mem));
  }

  lemma HandoverSwaps(w: World, s: Sys, c: Cpu, r: Rid, s': Sys, curr: Region, next: Region)
    requires WellPlaced(w) && s.env.stack != [] && Handover(w, s, c, r, s')
    requires curr == w.at[Top(s.env)] && next == w.at[r]
    ensures Swapped(c, s'.cpu, curr.ctx, ReadFrame(c.mem, next.ctx)) && Apart(next, curr)
    ensures StackWord(next, ReturnWord(next, c.mem))
  {
    WordBelow(next, ReadFrame(c.mem, next.ctx)[RSP_SLOT], ReturnWord(next, c.mem));
  }

  lemma HandoverRewrites(w: World, s: Sys, c: Cpu, r: Rid, s': Sys, curr: Region, next: Region)
    requires Inv(w, s) && Handover(w, s, c, r, s') && r in s.env.ready && curr == w.at[Top(s.env)] && next == w.at[r]
    ensures Rewrites(s.cpu.mem, s'.cpu.mem, curr, next, ReturnWord(next, s.cpu.mem))
  {
    ReadyUntouched(w, s, c, r, s');
    HandoverWrites(w, s, c, r, s', curr, next);
  }

  // Runs

  predicate Runs(s: Sys, r: Rid) {
    s.env.stack != [] && Top(s.env) == r
  }

  ghost predicate Steps(w: World, s: Sys, a: Move, s': Sys) {
    WellPlaced(w) && Enabled(w, s, a) && Exec(w, s, a) == Ok(s')
  }

  ghost predicate IsRun(w: World, ss: seq<Sys>, moves: seq<Move>) {
    && WellPlaced(w) && |ss| == |moves| + 1
    && forall i :: 0 <= i < |moves| ==> Steps(w, ss[i], moves[i], ss[i + 1])
  }

  lemma {:induction false} RunsKeepInv(w: World, ss: seq<Sys>, moves: seq<Move>, n: nat)
    requires IsRun(w, ss, moves) && Inv(w, ss[0]) && n <= |moves|
    ensures Inv(w, ss[n])
  {
    if n == 0 {
    } else {
      RunsKeepInv(w, ss, moves, n - 1);
      assert Steps(w, ss[n - 1], moves[n - 1], ss[n]);
      StepKeeps(w, ss[n - 1], moves[n - 1]);
    }
  }

  /** Every swap step is a handover. */
  lemma SwapStep(w: World, s: Sys, a: Move, s': Sys) returns (c: Cpu, next: Rid)
    requires Inv(w, s) && Steps(w, s, a, s') && !a.Local?
    ensures Handover(w, s, c, next, s') && next == Top(s'.env)
    ensures a.Enter? ==> next == a.r && c == Prepared(w, s, next)
    ensures a.Leave? ==> |s.env.stack| > 1 && next == s.env.stack[|s.env.stack| - 2] && next in s.env.ready
  {
    if a.Enter? {
      StepKeeps(w, s, a);
      EnterStep(w, s, a.r);
      c, next := Prepared(w, s, a.r), a.r;
    } else {
      LeaveStep(w, s);
      YieldDisciplined(s.env);
      c, next := s.cpu, s.env.stack[|s.env.stack| - 2];
    }
  }

  lemma StepKeepsSuspended(w: World, r: Rid, c0: Cpu, s: Sys, a: Move, s': Sys)
    requires Inv(w, s) && Steps(w, s, a, s') && Suspended(w, r, c0, s) && !Runs(s', r)
    ensures Suspended(w, r, c0, s')
  {
    if a.Local? {
      LocalKeeps(w, s, a.after, r);
    } else {
      var c, next := SwapStep(w, s, a, s');
      HandoverKeepsSuspended(w, r, c0, s, c, next, s');
    }
  }

  lemma RunSuspends(w: World, ss: seq<Sys>, moves: seq<Move>, r: Rid)
    requires IsRun(w, ss, moves) && moves != [] && Inv(w, ss[0]) && Runs(ss[0], r) && !Runs(ss[1], r)
    ensures Suspended(w, r, ss[0].cpu, ss[1])
  {
    assert Steps(w, ss[0], moves[0], ss[1]);
    var c, next := SwapStep(w, ss[0], moves[0], ss[1]);
    HandoverSuspends(w, ss[0], c, next, ss[1]);
  }

  lemma RunStaysSuspended(w: World, ss: seq<Sys>, moves: seq<Move>, i: nat, r: Rid, c0: Cpu)
    requires IsRun(w, ss, moves) && i < |moves| && Inv(w, ss[0]) && Suspended(w, r, c0, ss[i]) && !Runs(ss[i + 1], r)
    ensures Suspended(w, r, c0, ss[i + 1])
  {
    RunsKeepInv(w, ss, moves, i);
    assert Steps(w, ss[i], moves[i], ss[i + 1]);
    StepKeepsSuspended(w, r, c0, ss[i], moves[i], ss[i + 1]);
  }

  lemma {:induction false} RunKeepsSuspended(w: World, ss: seq<Sys>, moves: seq<Move>, r: Rid, n: nat)
    requires IsRun(w, ss, moves) && Inv(w, ss[0]) && 1 <= n <= |moves|
    requires Runs(ss[0], r) && forall i :: 1 <= i <= n ==> !Runs(ss[i], r)
    ensures Suspended(w, r, ss[0].cpu, ss[n])
  {
    if n == 1 {
      RunSuspends(w, ss, moves, r);
    } else {
      RunKeepsSuspended(w, ss, moves, r, n - 1);
      RunStaysSuspended(w, ss, moves, n - 1, r, ss[0].cpu);
    }
  }

  /** No code that runs between ss[i] and ss[j] changes the word at `x`. */
  ghost predicate Quiet(ss: seq<Sys>, moves: seq<Move>, i: nat, j: nat, x: int)
    requires j <= |moves| && |ss| == |moves| + 1
  {
    forall k :: i <= k < j && moves[k].Local? ==> Load(ss[k + 1].cpu.mem, x) == Load(ss[k].cpu.mem, x)
  }

  /** While a routine does not run, swaps leave its stack alone. */
  lemma StepKeepsWord(w: World, s: Sys, a: Move, s': Sys, r: Rid, x: int)
    requires Inv(w, s) && Steps(w, s, a, s') && !Runs(s', r) && r in w.at && StackWord(w.at[r], x)
    requires a.Local? ==> Load(s'.cpu.mem, x) == Load(s.cpu.mem, x)
    ensures Load(s'.cpu.mem, x) == Load(s.cpu.mem, x)
  {
    if !a.Local? {
      var c, next := SwapStep(w, s, a, s');
      HandoverKeepsWord(w, s, c, next, s', r, x);
    }
  }

  lemma {:induction false} RunKeepsWord(w: World, ss: seq<Sys>, moves: seq<Move>, r: Rid, n: nat, x: int)
    requires IsRun(w, ss, moves) && Inv(w, ss[0]) && n <= |moves| && Quiet(ss, moves, 0, n, x)
    requires r in w.at && StackWord(w.at[r], x) && forall i :: 1 <= i <= n ==> !Runs(ss[i], r)
    ensures Load(ss[n].cpu.mem, x) == Load(ss[0].cpu.mem, x)
  {
    if n == 0 {
    } else {
      RunKeepsWord(w, ss, moves, r, n - 1, x);
      RunsKeepInv(w, ss, moves, n - 1);
      assert Steps(w, ss[n - 1], moves[n - 1], ss[n]);
      StepKeepsWord(w, ss[n - 1], moves[n - 1], ss[n], r, x);
    }
  }

  /** A routine swaps out in the first of the moves, and back in in the last one. */
  ghost predicate SwapsOutAndIn(w: World, ss: seq<Sys>, moves: seq<Move>, r: Rid) {
    && IsRun(w, ss, moves) && Inv(w, ss[0]) && |moves| > 1 && r in w.at
    && Runs(ss[0], r) && Runs(ss[|moves|], r) && forall i :: 1 <= i < |moves| ==> !Runs(ss[i], r)
  }

  /** The last of the moves is a swap into the suspended routine. */
  lemma LastSwap(w: World, ss: seq<Sys>, moves: seq<Move>, r: Rid) returns (c: Cpu)
    requires SwapsOutAndIn(w, ss, moves, r)
    ensures var n := |moves| - 1;
            && Inv(w, ss[n]) && Suspended(w, r, ss[0].cpu, ss[n]) && Handover(w, ss[n], c, r, ss[n + 1])
            && c == ss[n].cpu && !moves[n].Local?
  {
    var n := |moves| - 1;
    RunKeepsSuspended(w, ss, moves, r, n);
    RunsKeepInv(w, ss, moves, n);
    assert Steps(w, ss[n], moves[n], ss[n + 1]);
    var next;
    c, next := SwapStep(w, ss[n], moves[n], ss[n + 1]);
  }

  lemma RoundTripWord(w: World, ss: seq<Sys>, moves: seq<Move>, r: Rid, x: int)
    requires SwapsOutAndIn(w, ss, moves, r) && StackWord(w.at[r], x)
    requires Quiet(ss, moves, 0, |moves|, x) && x != Get(ss[0].cpu.regs, RSP)
    ensures Load(ss[|moves|].cpu.mem, x) == Load(ss[0].cpu.mem, x)
  {
    var n := |moves| - 1;
    RunKeepsWord(w, ss, moves, r, n, x);
    var c := LastSwap(w, ss, moves, r);
    HandoverResumes(w, ss[0].cpu, ss[n], c, r, ss[n + 1]);
    HandoverKeepsWord(w, ss[n], c, r, ss[n + 1], r, x);
  }

  /** Round trip. A routine swaps out in the first step; whatever the others do and however often
      they swap, the first swap back into it continues at its return address, with its registers,
      and with every word of its stack as it was that no code in between has changed. */
  lemma RoundTrip(w: World, ss: seq<Sys>, moves: seq<Move>, r: Rid)
    requires SwapsOutAndIn(w, ss, moves, r)
    ensures Resumed(ss[0].cpu, ss[|moves|].cpu)
    ensures forall x :: StackWord(w.at[r], x) && Quiet(ss, moves, 0, |moves|, x) ==>
              Load(ss[|moves|].cpu.mem, x) == Load(ss[0].cpu.mem, x)
  {
    var n := |moves| - 1;
    var c := LastSwap(w, ss, moves, r);
    HandoverResumes(w, ss[0].cpu, ss[n], c, r, ss[n + 1]);
    forall x | StackWord(w.at[r], x) && Quiet(ss, moves, 0, |moves|, x)
      ensures Load(ss[|moves|].cpu.mem, x) == Load(ss[0].cpu.mem, x)
    {
      if x != Get(ss[0].cpu.regs, RSP) {
        RoundTripWord(w, ss, moves, r, x);
      }
    }
  }

  /** The same inside any run from the start of the thread, between two states of the run. */
  lemma RoundTripInRun(w: World, ss: seq<Sys>, moves: seq<Move>, i: nat, j: nat, r: Rid)
    requires IsRun(w, ss, moves) && ss[0].env == INITIAL && i + 1 < j <= |moves| && r in w.at
    requires Runs(ss[i], r) && Runs(ss[j], r) && forall k :: i < k < j ==> !Runs(ss[k], r)
    ensures Resumed(ss[i].cpu, ss[j].cpu)
    ensures forall x :: StackWord(w.at[r], x) && Quiet(ss, moves, i, j, x) ==>
              Load(ss[j].cpu.mem, x) == Load(ss[i].cpu.mem, x)
  {
    PartSwapsOutAndIn(w, ss, moves, i, j, r);
    RoundTrip(w, ss[i..j + 1], moves[i..j], r);
    forall x | Quiet(ss, moves, i, j, x)
      ensures Quiet(ss[i..j + 1], moves[i..j], 0, j - i, x)
    {
      PartIsQuiet(ss, moves, i, j, x);
    }
  }

  lemma PartSwapsOutAndIn(w: World, ss: seq<Sys>, moves: seq<Move>, i: nat, j: nat, r: Rid)
    requires IsRun(w, ss, moves) && ss[0].env == INITIAL && i + 1 < j <= |moves| && r in w.at
    requires Runs(ss[i], r) && Runs(ss[j], r) && forall k :: i < k < j ==> !Runs(ss[k], r)
    ensures SwapsOutAndIn(w, ss[i..j + 1], moves[i..j], r)
  {
    InitInv(w, ss[0].cpu);
    RunsKeepInv(w, ss, moves, i);
    PartIsRun(w, ss, moves, i, j);
  }

  lemma PartIsQuiet(ss: seq<Sys>, moves: seq<Move>, i: nat, j: nat, x: int)
    requires i <= j <= |moves| && |ss| == |moves| + 1 && Quiet(ss, moves, i, j, x)
    ensures Quiet(ss[i..j + 1], moves[i..j], 0, j - i, x)
  {
    forall k | 0 <= k < j - i && moves[i..j][k].Local?
      ensures Load(ss[i..j + 1][k + 1].cpu.mem, x) == Load(ss[i..j + 1][k].cpu.mem, x)
    {
      assert moves[i + k].Local?;
    }
  }

  lemma PartIsRun(w: World, ss: seq<Sys>, moves: seq<Move>, i: nat, j: nat)
    requires IsRun(w, ss, moves) && i <= j <= |moves|
    ensures IsRun(w, ss[i..j + 1], moves[i..j])
  {
    forall k | 0 <= k < j - i
      ensures Steps(w, ss[i..j + 1][k], moves[i..j][k], ss[i..j + 1][k + 1])
    {
      assert Steps(w, ss[i + k], moves[i + k], ss[i + k + 1]);
    }
  }

  /** Footprint of a swap into a routine that ran before: the outgoing context, and the return word
      of the incoming routine, which receives the return address. Only the context changes if and
      only if the word held that address already. */
  lemma SwapFootprint(w: World, s: Sys, a: Move, s': Sys, curr: Region, next: Region)
    requires Inv(w, s) && Steps(w, s, a, s') && !a.Local? && Top(s'.env) in s.env.made + {MAIN}
    requires Top(s.env) in w.at && curr == w.at[Top(s.env)] && Top(s'.env) in w.at && next == w.at[Top(s'.env)]
    ensures var word := ReturnWord(next, s.cpu.mem);
            && Rewrites(s.cpu.mem, s'.cpu.mem, curr, next, word)
            && (OnlyContext(s.cpu.mem, s'.cpu.mem, curr) <==>
                Load(s.cpu.mem, word) == ReadFrame(s.cpu.mem, next.ctx)[RET_SLOT])
  {
    var c, r := SwapStep(w, s, a, s');
    SwapsToReady(w, s, c, r, s');
    HandoverRewrites(w, s, c, r, s', curr, next);
    RewritesNothing(s.cpu.mem, s'.cpu.mem, curr, next, ReturnWord(next, s.cpu.mem));
  }

  lemma SwapsToReady(w: World, s: Sys, c: Cpu, r: Rid, s': Sys)
    requires Inv(w, s) && Handover(w, s, c, r, s') && r in s.env.made + {MAIN}
    ensures r in s.env.ready
  {
  }

  /** And it did, in any run, when no code in between has changed that word: the swap back into a
      routine rewrites the return address that is still there. */
  lemma SwapBackFootprint(w: World, ss: seq<Sys>, moves: seq<Move>, r: Rid, s: Sys, curr: Region)
    requires SwapsOutAndIn(w, ss, moves, r) && Quiet(ss, moves, 0, |moves|, Get(ss[0].cpu.regs, RSP))
    requires s == ss[|moves| - 1] && s.env.stack != [] && Top(s.env) in w.at && curr == w.at[Top(s.env)]
    ensures OnlyContext(s.cpu.mem, ss[|moves|].cpu.mem, curr)
  {
    var n, c0 := |moves| - 1, ss[0].cpu;
    var c := LastSwap(w, ss, moves, r);
    HandoverResumes(w, c0, s, c, r, ss[n + 1]);
    HandoverRewrites(w, s, c, r, ss[n + 1], curr, w.at[r]);
    RewritesNothing(s.cpu.mem, ss[n + 1].cpu.mem, curr, w.at[r], Get(c0.regs, RSP));
    SuspendedWord(w, r, c0, s);
    RunKeepsWord(w, ss, moves, r, n, Get(c0.regs, RSP));
  }

  lemma SuspendedWord(w: World, r: Rid, c0: Cpu, s: Sys)
    requires Suspended(w, r, c0, s)
    ensures ReadFrame(s.cpu.mem, w.at[r].ctx)[RET_SLOT] == Load(c0.mem, Get(c0.regs, RSP))
  {
  }

  /** The first Resume of a routine enters RoutineFunc with the routine as its argument, at the end
      of the routine's own stack, and writes nothing but the two contexts and words of that stack. */
  lemma FirstResume(w: World, s: Sys, r: Rid, s': Sys)
    requires Inv(w, s) && Enabled(w, s, Enter(r)) && Exec(w, s, Enter(r)) == Ok(s') && r !in s.env.made
    ensures Entered(s'.cpu, w.entry, w.at[r].self, 0)
    ensures AtTheEnd(w.at[r].base, w.at[r].size, Get(s'.cpu.regs, RSP)) && InStack(w.at[r], Get(s'.cpu.regs, RSP) - 8)
    ensures var curr, next, a := w.at[Top(s.env)], w.at[r], Get(s'.cpu.regs, RSP) - 8;
            forall x :: Aligned(x) && !InContext(curr, x) && !InContext(next, x) && x != a ==>
              Load(s'.cpu.mem, x) == Load(s.cpu.mem, x)
  {
    var c, next := SwapStep(w, s, Enter(r), s');
    var g := w.at[r];
    PreparedFrame(w, s, r);
    HandoverSwaps(w, s, c, r, s', w.at[Top(s.env)], g);
    FreshFrameEnters(c, s'.cpu, w.at[Top(s.env)].ctx, g.base, g.size, w.entry, g.self, 0);
    PreparedFootprint(w, s, r);
  }

  lemma PreparedFootprint(w: World, s: Sys, r: Rid)
    requires WellPlaced(w) && r in w.at
    ensures forall x :: !InContext(w.at[r], x) ==> Load(Prepared(w, s, r).mem, x) == Load(s.cpu.mem, x)
  {
    var g := w.at[r];
    WriteWordsWrites(s.cpu.mem, g.ctx, MadeFrame(g.base, g.size, w.entry, g.self, 0));
  }
}
