/** Every run of the server is a run of the machine, whatever its segments compute. */
module LockstepRuns {
  import opened Wrappers
  import opened Machine
  import opened ContextSwap
  import opened Coctx
  import opened Routines
  import opened Reactor
  import opened ReactorInvariant
  import opened ReactorSteps
  import opened Server
  import opened WakeUps
  import opened ServerOnMachine
  import M = SwapRuns

  // The layout

  /** All routines of a server with `n` workers have their places. */
  ghost predicate LaidOut(w: M.World, n: nat) {
    M.WellPlaced(w) && forall r: Rid :: r <= n + 1 ==> r in w.at
  }

  /** Stacks of the default size, each after its context. */
  const STRIDE := 2 * DEFAULT_STACK

  function Place(r: Rid): M.Region
    requires (r + 1) * STRIDE < WORDS
  {
    M.Region(r * STRIDE, r * STRIDE + DEFAULT_STACK, DEFAULT_STACK, r * STRIDE, r * STRIDE + DEFAULT_STACK)
  }

  lemma PlaceIsGood(r: Rid)
    requires (r + 1) * STRIDE < WORDS
    ensures M.GoodRegion(Place(r))
  {
    assert r * STRIDE == 8 * (r * (STRIDE / 8));
  }

  lemma PlacesAreApart(r: Rid, q: Rid)
    requires (r + 1) * STRIDE < WORDS && (q + 1) * STRIDE < WORDS && r != q
    ensures M.Apart(Place(r), Place(q))
  {
  }

  function Places(n: nat): map<Rid, M.Region>
    requires (n + 2) * STRIDE < WORDS
  {
    map r: Rid | 0 <= r <= n + 1 :: Place(r)
  }

  lemma PlacesWell(n: nat, entry: Word, code: seq<Instr>)
    requires (n + 2) * STRIDE < WORDS && IsCoctxSwap(code)
    ensures LaidOut(M.World(Places(n), entry, code), n)
  {
    var at := Places(n);
    forall r: Rid | r in at
      ensures M.GoodRegion(at[r])
    {
      PlaceIsGood(r);
    }
    forall r: Rid, q: Rid | r in at && q in at && r != q
      ensures M.Apart(at[r], at[q])
    {
      PlacesAreApart(r, q);
    }
  }

  /** There is room for any number of workers that fits into the address space. */
  lemma LayoutExists(n: nat, entry: Word) returns (w: M.World)
    requires (n + 2) * STRIDE < WORDS
    ensures LaidOut(w, n) && w.entry == entry
    ensures forall r: Rid :: r in w.at ==> w.at[r].size == StackSize(None)
  {
    var code := CoctxSwap();
    OnlyCoctxSwap(code);
    PlacesWell(n, entry, code);
    w := M.World(Places(n), entry, code);
  }

  // Programs

  /** What the segments of a run compute, each from the state in which it begins. */
  type Program = (nat, Cpu) -> Cpu

  ghost predicate SparesContexts(w: M.World, program: Program) {
    forall k: nat, c, q: Rid, a :: q in w.at && Aligned(a) && M.InContext(w.at[q], a) ==>
      Load(program(k, c).mem, a) == Load(c.mem, a)
  }

  /** `code` is what the program computes in the k-th segment, with the registers set for the call
      of coctx_swap. */
  ghost predicate Computes(program: Program, k: nat, m: M.Sys, code: Cpu) {
    var c := program(k, m.cpu);
    code.mem == c.mem && SameBut(c.regs, code.regs, {RDI, RSI, RSP})
  }

  lemma ProgramMayRun(w: M.World, m: M.Sys, e': Env, program: Program, k: nat) returns (code: Cpu)
    requires M.WellPlaced(w) && SparesContexts(w, program)
    requires m.env.stack != [] && e'.stack != [] && Top(e') in w.at && Top(m.env) in w.at
    ensures MayRun(w, m, code, e') && Computes(program, k, m, code)
  {
    var g, h, c := w.at[Top(m.env)], w.at[Top(e')], program(k, m.cpu);
    var rsp := SomePointer(g);
    code := c.(regs := c.regs[RDI := g.ctx][RSI := h.ctx][RSP := rsp]);
    SparingIsLocal(w, m, program, k, code);
  }

  lemma SparingIsLocal(w: M.World, m: M.Sys, program: Program, k: nat, code: Cpu)
    requires SparesContexts(w, program) && code.mem == program(k, m.cpu).mem
    ensures M.LocalCode(w, m, code)
  {
  }

  lemma SomePointer(g: M.Region) returns (rsp: Word)
    requires Stack(g.base, g.size)
    ensures Aligned(rsp) && g.base <= rsp && rsp + 8 <= g.base + g.size
  {
    rsp := g.base + (8 - g.base % 8);
    assert rsp == 8 * (g.base / 8 + 1);
  }

  lemma RunsAmongWorkers(states: seq<State>, actions: seq<Action>, i: nat)
    requires IsRun(states, actions) && NoWrongCancel(states, actions) && i < |states|
    ensures states[i].env.stack != [] && Top(states[i].env) <= states[0].routineNum + 1
  {
    RunsKeepInv(states, actions, i);
    SameWorkers(states, actions, i);
    WhoRuns(states[i].routineNum, states[i].env, states[i].pc);
  }

  lemma SameWorkersStep(s: State, a: Action, s': State)
    requires Steps(s, a, s')
    ensures s'.routineNum == s.routineNum
  {
  }

  lemma {:induction false} SameWorkers(states: seq<State>, actions: seq<Action>, i: nat)
    requires IsRun(states, actions) && i < |states|
    ensures states[i].routineNum == states[0].routineNum
  {
    if i == 0 {
    } else {
      SameWorkers(states, actions, i - 1);
      SameWorkersStep(states[i - 1], actions[i - 1], states[i]);
    }
  }

  lemma PrefixIsRun(states: seq<State>, actions: seq<Action>, n: nat)
    requires IsRun(states, actions) && NoWrongCancel(states, actions) && n <= |actions|
    ensures IsRun(states[..n + 1], actions[..n]) && NoWrongCancel(states[..n + 1], actions[..n])
  {
  }

  lemma LockstepExtends(w: M.World, states: seq<State>, machine: seq<M.Sys>, code: seq<Cpu>, c: Cpu, m': M.Sys)
    requires |states| > 1 && Lockstep(w, states[..|states| - 1], machine, code)
    requires InStep(w, machine[|machine| - 1], c, states[|states| - 1].env, m')
    ensures Lockstep(w, states, machine + [m'], code + [c])
  {
    forall i | 0 <= i <= |code|
      ensures InStep(w, (machine + [m'])[i], (code + [c])[i], states[i + 1].env, (machine + [m'])[i + 1])
    {
      if i < |code| {
        assert InStep(w, machine[i], code[i], states[..|states| - 1][i + 1].env, machine[i + 1]);
      }
    }
  }

  /** The next segment of a run that the machine has followed so far. */
  lemma LastSegment(w: M.World, states: seq<State>, actions: seq<Action>, program: Program, m: M.Sys)
      returns (c: Cpu, m': M.Sys)
    requires IsRun(states, actions) && NoWrongCancel(states, actions) && actions != []
    requires LaidOut(w, states[0].routineNum) && SparesContexts(w, program)
    requires M.Inv(w, m) && m.env == states[|actions| - 1].env
    ensures InStep(w, m, c, states[|actions|].env, m') && Computes(program, |actions| - 1, m, c)
  {
    var n := |actions| - 1;
    ServerStepsRoutines(states, actions, n);
    RunsAmongWorkers(states, actions, n);
    RunsAmongWorkers(states, actions, n + 1);
    c := ProgramMayRun(w, m, states[n + 1].env, program, n);
    m' := SegmentFollows(w, m, c, states[n + 1].env);
  }

  ghost predicate ComputesAll(program: Program, machine: seq<M.Sys>, code: seq<Cpu>) {
    |machine| > |code| && forall k :: 0 <= k < |code| ==> Computes(program, k, machine[k], code[k])
  }

  lemma LockstepGoesOn(w: M.World, states: seq<State>, actions: seq<Action>, program: Program, machine: seq<M.Sys>,
          code: seq<Cpu>) returns (c: Cpu, m': M.Sys)
    requires IsRun(states, actions) && NoWrongCancel(states, actions) && actions != []
    requires LaidOut(w, states[0].routineNum) && SparesContexts(w, program)
    requires Lockstep(w, states[..|actions|], machine, code) && ComputesAll(program, machine, code)
    ensures Lockstep(w, states, machine + [m'], code + [c]) && ComputesAll(program, machine + [m'], code + [c])
  {
    var n := |actions| - 1;
    PrefixIsRun(states, actions, n);
    LockstepAgrees(w, states[..n + 1], actions[..n], machine, code, n);
    c, m' := LastSegment(w, states, actions, program, machine[n]);
    LockstepExtends(w, states, machine, code, c, m');
    ComputesOneMore(program, machine, code, c, m');
  }

  lemma ComputesOneMore(program: Program, machine: seq<M.Sys>, code: seq<Cpu>, c: Cpu, m': M.Sys)
    requires |machine| == |code| + 1 && ComputesAll(program, machine, code)
    requires Computes(program, |code|, machine[|code|], c)
    ensures ComputesAll(program, machine + [m'], code + [c])
  {
  }

  /** For every run of the server, and whatever the segments compute that leaves the contexts
      alone, there is a run of the machine without a fault. */
  lemma {:induction false} LockstepExists(w: M.World, states: seq<State>, actions: seq<Action>, program: Program)
      returns (machine: seq<M.Sys>, code: seq<Cpu>)
    requires IsRun(states, actions) && NoWrongCancel(states, actions)
    requires LaidOut(w, states[0].routineNum) && SparesContexts(w, program)
    ensures Lockstep(w, states, machine, code) && ComputesAll(program, machine, code)
    decreases |actions|
  {
    if actions == [] {
      machine, code := [M.Sys(INITIAL, Cpu(map[], 0, map[]))], [];
    } else {
      var n := |actions| - 1;
      PrefixIsRun(states, actions, n);
      machine, code := LockstepExists(w, states[..n + 1], actions[..n], program);
      var c, m' := LockstepGoesOn(w, states, actions, program, machine, code);
      machine, code := machine + [m'], code + [c];
    }
  }

  // Programs that store what the kernel reports

  type Half = h: int | 0 <= h < 0x1_0000_0000 witness 0

  function Lower(v: Word): Half {
    v % 0x1_0000_0000
  }

  function WithLower(v: Word, h: Half): (v': Word)
    ensures Upper(v') == Upper(v) && Lower(v') == h
  {
    v - v % 0x1_0000_0000 + h
  }

  /** set_revents on the channels of `owners`. */
  function SetRevents(w: M.World, owners: seq<Rid>, events: Rid -> Half, m: Memory): Memory {
    if owners == [] then m else SetRevents(w, owners[1..], events, SetOne(w, owners[0], events(owners[0]), m))
  }

  function SetOne(w: M.World, q: Rid, events: Half, m: Memory): Memory {
    if q !in w.at then m else
    var a := w.at[q].revents;
    m[a := WithLower(Load(m, a), events)]
  }

  lemma {:induction false} SetReventsElsewhere(w: M.World, owners: seq<Rid>, events: Rid -> Half, m: Memory, x: int)
    requires forall q :: q in owners && q in w.at ==> w.at[q].revents != x
    ensures Load(SetRevents(w, owners, events, m), x) == Load(m, x)
    decreases owners
  {
    if owners == [] {
    } else {
      SetReventsElsewhere(w, owners[1..], events, SetOne(w, owners[0], events(owners[0]), m), x);
    }
  }

  lemma {:induction false} SetReventsAt(w: M.World, owners: seq<Rid>, events: Rid -> Half, m: Memory, r: Rid)
    requires r in w.at && forall q: Rid :: q in w.at && q != r ==> w.at[q].revents != w.at[r].revents
    ensures var v, v' := Load(m, w.at[r].revents), Load(SetRevents(w, owners, events, m), w.at[r].revents);
            Upper(v') == Upper(v) && Lower(v') == if r in owners then events(r) else Lower(v)
    decreases owners
  {
    if owners == [] {
    } else {
      SetReventsAt(w, owners[1..], events, SetOne(w, owners[0], events(owners[0]), m), r);
    }
  }

  /** The routines whose channels the poll leading to `s'` has reported. */
  function Owners(s': State, batch: seq<ChanId>): seq<Rid> {
    if batch == [] then []
    else (if batch[0] == TIMERFD_CHANNEL then [] else [Chan(s', batch[0]).owner]) + Owners(s', batch[1..])
  }

  lemma {:induction false} OwnersInBatch(s': State, batch: seq<ChanId>, r: Rid)
    ensures r in Owners(s', batch) <==> exists c :: c in batch && c != TIMERFD_CHANNEL && Chan(s', c).owner == r
  {
    if batch == [] {
    } else {
      OwnersInBatch(s', batch[1..], r);
      assert batch == [batch[0]] + batch[1..];
    }
  }

  /** At every poll main stores the events that the kernel reports, and nothing else happens to the
      memory of others. */
  function Storing(w: M.World, states: seq<State>, actions: seq<Action>, events: (nat, Rid) -> Half): Program
    requires |states| == |actions| + 1
  {
    (k: nat, c: Cpu) =>
      if k < |actions| && actions[k].Poll? then c.(mem := Polled(w, states[k + 1], EventsAt(events, k), c.mem)) else c
  }

  function EventsAt(events: (nat, Rid) -> Half, k: nat): Rid -> Half {
    r => events(k, r)
  }

  function Polled(w: M.World, s': State, events: Rid -> Half, m: Memory): Memory {
    SetRevents(w, Owners(s', s'.batch), events, m)
  }

  lemma ReventsInStack(w: M.World, q: Rid, r: Rid, x: int)
    requires M.WellPlaced(w) && q in w.at && r in w.at && (M.InContext(w.at[r], x) || (q != r && M.InStack(w.at[r], x)))
    ensures w.at[q].revents != x
  {
    assert M.GoodRegion(w.at[q]);
    if q != r {
      assert M.Apart(w.at[q], w.at[r]);
    }
  }

  /** Of the words of a stack, only that of revents_ changes, and only when it is reported. */
  lemma PolledWord(w: M.World, s': State, events: Rid -> Half, m: Memory, r: Rid, x: int)
    requires M.WellPlaced(w) && r in w.at && M.InStack(w.at[r], x)
    ensures var v, v' := Load(m, x), Load(Polled(w, s', events, m), x);
            if x == w.at[r].revents && InBatch(s', r) then Upper(v') == Upper(v) && Lower(v') == events(r) else v' == v
  {
    var owners := Owners(s', s'.batch);
    OwnersInBatch(s', s'.batch, r);
    forall q: Rid | q in w.at && q != r
      ensures w.at[q].revents != x
    {
      ReventsInStack(w, q, r, x);
    }
    if x == w.at[r].revents && r in owners {
      SetReventsAt(w, owners, events, m, r);
    } else {
      SetReventsElsewhere(w, owners, events, m, x);
    }
  }

  lemma StoringSparesContexts(w: M.World, states: seq<State>, actions: seq<Action>, events: (nat, Rid) -> Half)
    requires M.WellPlaced(w) && |states| == |actions| + 1
    ensures SparesContexts(w, Storing(w, states, actions, events))
  {
    forall k: nat, c, r: Rid, a | r in w.at && Aligned(a) && M.InContext(w.at[r], a)
      ensures Load(Storing(w, states, actions, events)(k, c).mem, a) == Load(c.mem, a)
    {
      StoringSparesContext(w, states, actions, events, k, c, r, a);
    }
  }

  lemma StoringSparesContext(w: M.World, states: seq<State>, actions: seq<Action>, events: (nat, Rid) -> Half, k: nat,
          c: Cpu, r: Rid, a: int)
    requires M.WellPlaced(w) && |states| == |actions| + 1 && r in w.at && M.InContext(w.at[r], a)
    ensures Load(Storing(w, states, actions, events)(k, c).mem, a) == Load(c.mem, a)
  {
    if k < |actions| && actions[k].Poll? {
      PolledSparesContext(w, states[k + 1], EventsAt(events, k), c.mem, r, a);
    }
  }

  lemma PolledSparesContext(w: M.World, s': State, events: Rid -> Half, m: Memory, r: Rid, x: int)
    requires M.WellPlaced(w) && r in w.at && M.InContext(w.at[r], x)
    ensures Load(Polled(w, s', events, m), x) == Load(m, x)
  {
    forall q: Rid | q in w.at
      ensures w.at[q].revents != x
    {
      ReventsInStack(w, q, r, x);
    }
    SetReventsElsewhere(w, Owners(s', s'.batch), events, m, x);
  }

  /** revents_ of the Channel of every routine whose descriptor is reported holds what the kernel
      reported. */
  ghost predicate ReventsStored(w: M.World, s: State, a: Action, events: Rid -> Half, code: Cpu) {
    forall r: Rid :: Reports(s, a, r) ==> r in w.at && Lower(Load(code.mem, w.at[r].revents)) == events(r)
  }

  lemma PolledStoresOnly(w: M.World, s: State, a: Action, s': State, events: Rid -> Half, m: M.Sys, code: Cpu)
    requires M.WellPlaced(w) && code.mem == Polled(w, s', events, m.cpu.mem)
    requires forall r: Rid :: InBatch(s', r) <==> Reports(s, a, r)
    ensures StoresOnlyRevents(w, s, a, m, code)
  {
    forall r: Rid, x | r in w.at && M.StackWord(w.at[r], x) && Load(code.mem, x) != Load(m.cpu.mem, x)
      ensures Reports(s, a, r) && x == w.at[r].revents && Upper(Load(code.mem, x)) == Upper(Load(m.cpu.mem, x))
    {
      PolledWord(w, s', events, m.cpu.mem, r, x);
      assert InBatch(s', r);
    }
  }

  lemma PolledStoresAll(w: M.World, s: State, a: Action, s': State, events: Rid -> Half, m: M.Sys, code: Cpu)
    requires M.WellPlaced(w) && code.mem == Polled(w, s', events, m.cpu.mem)
    requires forall r: Rid :: Reports(s, a, r) ==> r in w.at && InBatch(s', r)
    ensures ReventsStored(w, s, a, events, code)
  {
    forall r: Rid | Reports(s, a, r)
      ensures Lower(Load(code.mem, w.at[r].revents)) == events(r)
    {
      assert M.GoodRegion(w.at[r]);
      PolledWord(w, s', events, m.cpu.mem, r, w.at[r].revents);
    }
  }

  lemma StoringStores(w: M.World, states: seq<State>, actions: seq<Action>, events: (nat, Rid) -> Half, k: nat,
          m: M.Sys, code: Cpu)
    requires IsRun(states, actions) && NoWrongCancel(states, actions) && LaidOut(w, states[0].routineNum)
    requires k < |actions| && Computes(Storing(w, states, actions, events), k, m, code)
    ensures StoresOnlyRevents(w, states[k], actions[k], m, code)
    ensures ReventsStored(w, states[k], actions[k], EventsAt(events, k), code)
  {
    if actions[k].Poll? {
      ReportedInPlace(w, states, actions, k);
      PolledStoresOnly(w, states[k], actions[k], states[k + 1], EventsAt(events, k), m, code);
      PolledStoresAll(w, states[k], actions[k], states[k + 1], EventsAt(events, k), m, code);
    }
  }

  /** The batch has the reported channels, and their routines have their places. */
  lemma ReportedInPlace(w: M.World, states: seq<State>, actions: seq<Action>, k: nat)
    requires IsRun(states, actions) && NoWrongCancel(states, actions) && LaidOut(w, states[0].routineNum)
    requires k < |actions| && actions[k].Poll?
    ensures forall r: Rid :: InBatch(states[k + 1], r) <==> Reports(states[k], actions[k], r)
    ensures forall r: Rid :: Reports(states[k], actions[k], r) ==> r in w.at
  {
    RunsKeepInv(states, actions, k);
    SameWorkers(states, actions, k);
    assert Steps(states[k], actions[k], states[k + 1]);
    forall r: Rid
      ensures InBatch(states[k + 1], r) <==> Reports(states[k], actions[k], r)
    {
      BatchIsReported(states[k], actions[k].ready, states[k + 1], r);
    }
    forall r: Rid | Reports(states[k], actions[k], r)
      ensures r in w.at
    {
      WaitersAreRoutines(states[k], r);
    }
  }

  lemma WaitersAreRoutines(s: State, r: Rid)
    requires Inv(s) && At(s.pc, r).Parked?
    ensures r <= s.routineNum + 1
  {
    assert RoutineState(s.routineNum, s.env.stack, s.pc, r);
  }

  /** In particular the runs in which every poll stores what the kernel reports, on the stacks of
      the routines that wait: for these ServerStackKept holds. */
  lemma LockstepStoresRevents(w: M.World, states: seq<State>, actions: seq<Action>, events: (nat, Rid) -> Half)
      returns (machine: seq<M.Sys>, code: seq<Cpu>)
    requires IsRun(states, actions) && NoWrongCancel(states, actions) && LaidOut(w, states[0].routineNum)
    ensures Lockstep(w, states, machine, code) && StoreOnlyRevents(w, states, actions, machine, code)
    ensures forall k :: 0 <= k < |actions| ==> ReventsStored(w, states[k], actions[k], EventsAt(events, k), code[k])
  {
    var program := Storing(w, states, actions, events);
    StoringSparesContexts(w, states, actions, events);
    machine, code := LockstepExists(w, states, actions, program);
    forall k | 0 <= k < |actions|
      ensures StoresOnlyReventsAt(w, states, actions, machine, code, k)
      ensures ReventsStored(w, states[k], actions[k], EventsAt(events, k), code[k])
    {
      StoringStores(w, states, actions, events, k, machine[k], code[k]);
    }
  }
}
