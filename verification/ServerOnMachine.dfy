/** The runs of the server on the machine: each code segment is arbitrary code of the running
    routine, and each Resume and Yield at its end executes `coctx_swap`. */
module ServerOnMachine {
  import opened Wrappers
  import opened Machine
  import opened ContextSwap
  import opened Routines
  import opened Reactor
  import opened ReactorInvariant
  import opened ReactorSteps
  import opened Server
  import opened WakeUps
  import M = SwapRuns

  /** The swap that takes the call stack from `e` to `e'`. */
  function SwapOf(e: Env, e': Env): M.Move
    requires e'.stack != []
  {
    if |e'.stack| < |e.stack| then M.Leave else M.Enter(Top(e'))
  }

  /** `code` is what the running routine computes in a segment that takes the routines to `e'`. It
      leaves the contexts in use alone and, before a swap, has put the arguments of coctx_swap in
      place and its stack pointer into its own stack. */
  ghost predicate MayRun(w: M.World, m: M.Sys, code: Cpu, e': Env) {
    && m.env.stack != [] && e'.stack != [] && M.LocalCode(w, m, code)
    && (e' != m.env ==> M.CallsSwap(w, code, Top(m.env), Top(e')))
  }

  /** From `m` to `m'` the machine has executed `code`, and then the swap that leads to `e'`. */
  ghost predicate Follows(w: M.World, m: M.Sys, code: Cpu, e': Env, m': M.Sys) {
    && e'.stack != [] && M.Steps(w, m, M.Local(code), m.(cpu := code))
    && if e' == m.env then m' == m.(cpu := code) else M.Steps(w, m.(cpu := code), SwapOf(m.env, e'), m')
  }

  // One segment

  lemma LocalFollows(w: M.World, m: M.Sys, code: Cpu)
    requires M.Inv(w, m) && M.LocalCode(w, m, code)
    ensures M.Steps(w, m, M.Local(code), m.(cpu := code)) && M.Inv(w, m.(cpu := code))
  {
    M.StepKeeps(w, m, M.Local(code));
  }

  /** The swap of a routine step is enabled, does not fail, and leads to the new call stack. */
  lemma SwapFollows(w: M.World, m: M.Sys, e': Env) returns (m': M.Sys)
    requires M.Inv(w, m) && RoutineStep(m.env, e') && e' != m.env && e'.stack != []
    requires M.CallsSwap(w, m.cpu, Top(m.env), Top(e'))
    ensures M.Steps(w, m, SwapOf(m.env, e'), m') && M.Inv(w, m') && m'.env == e'
  {
    var a := SwapOf(m.env, e');
    SwapIsEnabled(w, m, e');
    M.StepKeeps(w, m, a);
    m' := M.Exec(w, m, a).value;
  }

  lemma SwapIsEnabled(w: M.World, m: M.Sys, e': Env)
    requires M.Inv(w, m) && RoutineStep(m.env, e') && e' != m.env && e'.stack != []
    requires M.CallsSwap(w, m.cpu, Top(m.env), Top(e'))
    ensures var a := SwapOf(m.env, e');
            && M.Enabled(w, m, a) && (a.Enter? ==> |m.env.stack| < CAPACITY)
            && (if a.Leave? then Yield(m.env) == Ok(e') else a.Enter? && Resume(m.env, a.r) == Ok(e'))
  {
  }

  /** Whatever code the segment consists of, the machine follows the server without a fault. */
  lemma SegmentFollows(w: M.World, m: M.Sys, code: Cpu, e': Env) returns (m': M.Sys)
    requires M.Inv(w, m) && RoutineStep(m.env, e') && MayRun(w, m, code, e')
    ensures Follows(w, m, code, e', m') && M.Inv(w, m') && m'.env == e'
  {
    LocalFollows(w, m, code);
    if e' == m.env {
      m' := m.(cpu := code);
    } else {
      m' := SwapFollows(w, m.(cpu := code), e');
    }
  }

  lemma FollowedIsOne(w: M.World, m: M.Sys, code: Cpu, e': Env, m': M.Sys, m'': M.Sys)
    requires Follows(w, m, code, e', m') && Follows(w, m, code, e', m'')
    ensures m' == m''
  {
  }

  // Runs

  /** The machine runs along with the server, by `code[i]` in the i-th segment. */
  ghost predicate Lockstep(w: M.World, states: seq<State>, machine: seq<M.Sys>, code: seq<Cpu>) {
    && |states| == |machine| == |code| + 1 && M.WellPlaced(w) && machine[0].env == INITIAL
    && forall i :: 0 <= i < |code| ==> InStep(w, machine[i], code[i], states[i + 1].env, machine[i + 1])
  }

  ghost predicate InStep(w: M.World, m: M.Sys, code: Cpu, e': Env, m': M.Sys) {
    MayRun(w, m, code, e') && Follows(w, m, code, e', m')
  }

  lemma ServerStepsRoutines(states: seq<State>, actions: seq<Action>, i: nat)
    requires IsRun(states, actions) && NoWrongCancel(states, actions) && i < |actions|
    ensures RoutineStep(states[i].env, states[i + 1].env) && states[i + 1].env.stack != []
  {
    RunsKeepInv(states, actions, i);
    RunsKeepInv(states, actions, i + 1);
    assert Steps(states[i], actions[i], states[i + 1]);
    ResumesOnlySuspended(states[i], actions[i], states[i + 1]);
  }

  lemma InStepAgrees(w: M.World, m: M.Sys, code: Cpu, e': Env, m': M.Sys)
    requires M.Inv(w, m) && RoutineStep(m.env, e') && InStep(w, m, code, e', m')
    ensures M.Inv(w, m') && m'.env == e'
  {
    var m'' := SegmentFollows(w, m, code, e');
    FollowedIsOne(w, m, code, e', m', m'');
  }

  ghost predicate Agrees(w: M.World, m: M.Sys, e: Env) {
    m.env == e && M.Inv(w, m)
  }

  lemma LockstepStarts(w: M.World, states: seq<State>, actions: seq<Action>, machine: seq<M.Sys>, code: seq<Cpu>)
    requires IsRun(states, actions) && Lockstep(w, states, machine, code)
    ensures Agrees(w, machine[0], states[0].env)
  {
    M.InitInv(w, machine[0].cpu);
  }

  lemma LockstepContinues(w: M.World, states: seq<State>, machine: seq<M.Sys>, code: seq<Cpu>, n: nat)
    requires n < |code| && Lockstep(w, states, machine, code) && Agrees(w, machine[n], states[n].env)
    requires RoutineStep(states[n].env, states[n + 1].env)
    ensures Agrees(w, machine[n + 1], states[n + 1].env)
  {
    assert InStep(w, machine[n], code[n], states[n + 1].env, machine[n + 1]);
    InStepAgrees(w, machine[n], code[n], states[n + 1].env, machine[n + 1]);
  }

  /** The machine's call stack is the server's, and every suspended routine can be continued. */
  lemma {:induction false} LockstepAgrees(w: M.World, states: seq<State>, actions: seq<Action>,
                                          machine: seq<M.Sys>, code: seq<Cpu>, n: nat)
    requires IsRun(states, actions) && NoWrongCancel(states, actions) && Lockstep(w, states, machine, code)
    requires n < |states|
    ensures Agrees(w, machine[n], states[n].env)
  {
    if n == 0 {
      LockstepStarts(w, states, actions, machine, code);
    } else {
      LockstepAgrees(w, states, actions, machine, code, n - 1);
      ServerStepsRoutines(states, actions, n - 1);
      LockstepContinues(w, states, machine, code, n - 1);
    }
  }

  // The round trip

  lemma SwapOutSuspends(w: M.World, m: M.Sys, code: Cpu, e': Env, m': M.Sys)
    requires M.Inv(w, m) && Follows(w, m, code, e', m') && e' != m.env && m.env.stack != []
    ensures M.Suspended(w, Top(m.env), code, m')
  {
    LocalFollows(w, m, code);
    var c, next := M.SwapStep(w, m.(cpu := code), SwapOf(m.env, e'), m');
    M.HandoverSuspends(w, m.(cpu := code), c, next, m');
  }

  lemma SegmentKeepsSuspended(w: M.World, r: Rid, c0: Cpu, m: M.Sys, code: Cpu, e': Env, m': M.Sys)
    requires M.Inv(w, m) && Follows(w, m, code, e', m') && M.Suspended(w, r, c0, m) && !M.Runs(m', r) && !M.Runs(m, r)
    ensures M.Suspended(w, r, c0, m')
  {
    LocalFollows(w, m, code);
    M.StepKeepsSuspended(w, r, c0, m, M.Local(code), m.(cpu := code));
    if e' != m.env {
      M.StepKeepsSuspended(w, r, c0, m.(cpu := code), SwapOf(m.env, e'), m');
    }
  }

  lemma SwapInResumes(w: M.World, r: Rid, c0: Cpu, m: M.Sys, code: Cpu, e': Env, m': M.Sys)
    requires M.Inv(w, m) && Follows(w, m, code, e', m') && M.Suspended(w, r, c0, m) && M.Runs(m', r) && !M.Runs(m, r)
    ensures M.Resumed(c0, m'.cpu)
  {
    LocalFollows(w, m, code);
    M.StepKeepsSuspended(w, r, c0, m, M.Local(code), m.(cpu := code));
    var c, next := M.SwapStep(w, m.(cpu := code), SwapOf(m.env, e'), m');
    M.HandoverResumes(w, c0, m.(cpu := code), c, r, m');
  }

  /** Segment by segment, the machine alone. */
  ghost predicate Along(w: M.World, machine: seq<M.Sys>, code: seq<Cpu>) {
    |machine| == |code| + 1 && forall k :: 0 <= k < |code| ==> FollowsAt(w, machine, code, k)
  }

  ghost predicate FollowsAt(w: M.World, machine: seq<M.Sys>, code: seq<Cpu>, k: nat)
    requires k < |code| < |machine|
  {
    M.Inv(w, machine[k]) && Follows(w, machine[k], code[k], machine[k + 1].env, machine[k + 1])
  }

  /** Between two states in which it runs, `r` does not run. */
  ghost predicate Away(machine: seq<M.Sys>, i: nat, j: nat, r: Rid)
    requires j < |machine|
  {
    i + 1 < j && M.Runs(machine[i], r) && forall k :: i < k < j ==> !M.Runs(machine[k], r)
  }

  lemma AwayStarts(w: M.World, machine: seq<M.Sys>, code: seq<Cpu>, i: nat, r: Rid)
    requires Along(w, machine, code) && i < |code| && M.Runs(machine[i], r) && !M.Runs(machine[i + 1], r)
    ensures M.Suspended(w, r, code[i], machine[i + 1])
  {
    assert FollowsAt(w, machine, code, i);
    SwapOutSuspends(w, machine[i], code[i], machine[i + 1].env, machine[i + 1]);
  }

  lemma AwayContinues(w: M.World, machine: seq<M.Sys>, code: seq<Cpu>, k: nat, r: Rid, c0: Cpu)
    requires Along(w, machine, code) && k < |code| && !M.Runs(machine[k], r) && !M.Runs(machine[k + 1], r)
    requires M.Suspended(w, r, c0, machine[k])
    ensures M.Suspended(w, r, c0, machine[k + 1])
  {
    assert FollowsAt(w, machine, code, k);
    SegmentKeepsSuspended(w, r, c0, machine[k], code[k], machine[k + 1].env, machine[k + 1]);
  }

  lemma AwayEnds(w: M.World, machine: seq<M.Sys>, code: seq<Cpu>, k: nat, r: Rid, c0: Cpu)
    requires Along(w, machine, code) && k < |code| && !M.Runs(machine[k], r) && M.Runs(machine[k + 1], r)
    requires M.Suspended(w, r, c0, machine[k])
    ensures M.Resumed(c0, machine[k + 1].cpu)
  {
    assert FollowsAt(w, machine, code, k);
    SwapInResumes(w, r, c0, machine[k], code[k], machine[k + 1].env, machine[k + 1]);
  }

  lemma {:induction false} StaysSuspended(w: M.World, machine: seq<M.Sys>, code: seq<Cpu>, i: nat, j: nat, r: Rid)
    requires Along(w, machine, code) && j < |machine| && Away(machine, i, j, r)
    ensures M.Suspended(w, r, code[i], machine[j - 1])
    decreases j
  {
    if j == i + 2 {
      AwayStarts(w, machine, code, i, r);
    } else {
      StaysSuspended(w, machine, code, i, j - 1, r);
      AwayContinues(w, machine, code, j - 2, r, code[i]);
    }
  }

  lemma MachineRoundTrip(w: M.World, machine: seq<M.Sys>, code: seq<Cpu>, i: nat, j: nat, r: Rid)
    requires Along(w, machine, code) && j < |machine| && Away(machine, i, j, r) && M.Runs(machine[j], r)
    ensures M.Resumed(code[i], machine[j].cpu)
  {
    StaysSuspended(w, machine, code, i, j, r);
    AwayEnds(w, machine, code, j - 1, r, code[i]);
  }

  lemma SameRuns(w: M.World, m: M.Sys, s: State, r: Rid)
    requires M.Inv(w, m) && m.env == s.env
    ensures M.Runs(m, r) <==> Running(s.env.stack) == r
  {
  }

  lemma LockstepIsAlong(w: M.World, states: seq<State>, actions: seq<Action>, machine: seq<M.Sys>, code: seq<Cpu>,
          r: Rid)
    requires IsRun(states, actions) && NoWrongCancel(states, actions) && Lockstep(w, states, machine, code)
    ensures Along(w, machine, code)
    ensures forall k :: 0 <= k < |states| ==> (M.Runs(machine[k], r) <==> Running(states[k].env.stack) == r)
  {
    forall k | 0 <= k < |states|
      ensures M.Inv(w, machine[k]) && machine[k].env == states[k].env
      ensures M.Runs(machine[k], r) <==> Running(states[k].env.stack) == r
    {
      LockstepAgrees(w, states, actions, machine, code, k);
      SameRuns(w, machine[k], states[k], r);
    }
    forall k | 0 <= k < |code|
      ensures FollowsAt(w, machine, code, k)
    {
      assert InStep(w, machine[k], code[k], states[k + 1].env, machine[k + 1]);
    }
  }

  /** `r` runs in states[i] and states[j], and not in between. */
  ghost predicate AwayFrom(states: seq<State>, i: nat, j: nat, r: Rid)
    requires j < |states|
  {
    && i + 1 < j && Running(states[i].env.stack) == r == Running(states[j].env.stack)
    && forall k :: i < k < j ==> Running(states[k].env.stack) != r
  }

  lemma SameAway(states: seq<State>, machine: seq<M.Sys>, i: nat, j: nat, r: Rid)
    requires j < |states| == |machine| && AwayFrom(states, i, j, r)
    requires forall k :: 0 <= k < |states| ==> (M.Runs(machine[k], r) <==> Running(states[k].env.stack) == r)
    ensures Away(machine, i, j, r) && M.Runs(machine[j], r)
  {
  }

  /** In every run of the server, a routine that has given up control continues, when it is next
      resumed, at its return address with the registers that it had: whether it yielded in addEpoll
      and a descriptor or a timer brought it back, yielded when it was idle, or resumed another
      routine. */
  lemma ServerRoundTrip(w: M.World, states: seq<State>, actions: seq<Action>, machine: seq<M.Sys>, code: seq<Cpu>,
                        i: nat, j: nat, r: Rid)
    requires IsRun(states, actions) && NoWrongCancel(states, actions) && Lockstep(w, states, machine, code)
    requires j < |states| && AwayFrom(states, i, j, r)
    ensures M.Resumed(code[i], machine[j].cpu)
  {
    LockstepIsAlong(w, states, actions, machine, code, r);
    SameAway(states, machine, i, j, r);
    MachineRoundTrip(w, machine, code, i, j, r);
  }

  // The stack of a routine that is away

  /** A word, or only its upper four bytes, is the same. */
  predicate Agree(whole: bool, v: Word, v': Word) {
    if whole then v == v' else Upper(v) == Upper(v')
  }

  function Upper(v: Word): int {
    v / 0x1_0000_0000
  }

  /** The code of the k-th segment leaves the word at `x` as it was. */
  ghost predicate CodeKeeps(machine: seq<M.Sys>, code: seq<Cpu>, k: nat, x: int, whole: bool)
    requires k < |code| < |machine|
  {
    Agree(whole, Load(code[k].mem, x), Load(machine[k].cpu.mem, x))
  }

  /** The swap at the end of the k-th segment does. */
  ghost predicate SwapKeeps(machine: seq<M.Sys>, code: seq<Cpu>, k: nat, x: int)
    requires k < |code| < |machine|
  {
    Load(machine[k + 1].cpu.mem, x) == Load(code[k].mem, x)
  }

  lemma SwapKeepsWord(w: M.World, m: M.Sys, code: Cpu, e': Env, m': M.Sys, r: Rid, x: int)
    requires M.Inv(w, m) && Follows(w, m, code, e', m') && !M.Runs(m', r) && r in w.at && M.StackWord(w.at[r], x)
    ensures Load(m'.cpu.mem, x) == Load(code.mem, x)
  {
    LocalFollows(w, m, code);
    if e' != m.env {
      M.StepKeepsWord(w, m.(cpu := code), SwapOf(m.env, e'), m', r, x);
    }
  }

  /** Back in the routine, the swap itself has rewritten the return word with what it held. */
  lemma SwapInKeepsWord(w: M.World, r: Rid, c0: Cpu, m: M.Sys, code: Cpu, e': Env, m': M.Sys, x: int)
    requires M.Inv(w, m) && Follows(w, m, code, e', m') && M.Suspended(w, r, c0, m) && M.Runs(m', r) && !M.Runs(m, r)
    requires M.StackWord(w.at[r], x) && x != Get(c0.regs, RSP)
    ensures Load(m'.cpu.mem, x) == Load(code.mem, x)
  {
    LocalFollows(w, m, code);
    M.StepKeepsSuspended(w, r, c0, m, M.Local(code), m.(cpu := code));
    var c, next := M.SwapStep(w, m.(cpu := code), SwapOf(m.env, e'), m');
    M.HandoverResumes(w, c0, m.(cpu := code), c, r, m');
    M.ReadyUntouched(w, m.(cpu := code), c, r, m');
    M.HandoverKeepsWord(w, m.(cpu := code), c, r, m', r, x);
  }

  lemma AwaySwapKeepsWord(w: M.World, machine: seq<M.Sys>, code: seq<Cpu>, k: nat, r: Rid, x: int)
    requires Along(w, machine, code) && k < |code| && !M.Runs(machine[k + 1], r) && r in w.at && M.StackWord(w.at[r], x)
    ensures SwapKeeps(machine, code, k, x)
  {
    assert FollowsAt(w, machine, code, k);
    SwapKeepsWord(w, machine[k], code[k], machine[k + 1].env, machine[k + 1], r, x);
  }

  lemma {:induction false} KeptThroughout(machine: seq<M.Sys>, code: seq<Cpu>, i: nat, j: nat, x: int, whole: bool)
    requires i < j <= |code| < |machine|
    requires forall k :: i <= k < j ==> SwapKeeps(machine, code, k, x)
    requires forall k :: i < k < j ==> CodeKeeps(machine, code, k, x, whole)
    ensures Agree(whole, Load(machine[j].cpu.mem, x), Load(code[i].mem, x))
  {
    assert SwapKeeps(machine, code, j - 1, x);
    if j == i + 1 {
    } else {
      KeptThroughout(machine, code, i, j - 1, x, whole);
      assert CodeKeeps(machine, code, j - 1, x, whole);
    }
  }

  lemma AwayEndsKeepsWord(w: M.World, machine: seq<M.Sys>, code: seq<Cpu>, k: nat, r: Rid, c0: Cpu, x: int)
    requires Along(w, machine, code) && k < |code| && !M.Runs(machine[k], r) && M.Runs(machine[k + 1], r)
    requires M.Suspended(w, r, c0, machine[k]) && M.StackWord(w.at[r], x) && x != Get(c0.regs, RSP)
    ensures SwapKeeps(machine, code, k, x)
  {
    assert FollowsAt(w, machine, code, k);
    SwapInKeepsWord(w, r, c0, machine[k], code[k], machine[k + 1].env, machine[k + 1], x);
  }

  lemma EachSwapKeepsWord(w: M.World, machine: seq<M.Sys>, code: seq<Cpu>, i: nat, j: nat, k: nat, r: Rid, x: int)
    requires Along(w, machine, code) && j < |machine| && Away(machine, i, j, r) && M.Runs(machine[j], r) && r in w.at
    requires M.StackWord(w.at[r], x) && x != Get(code[i].regs, RSP) && i <= k < j
    ensures SwapKeeps(machine, code, k, x)
  {
    if k == j - 1 {
      StaysSuspended(w, machine, code, i, j, r);
      AwayEndsKeepsWord(w, machine, code, k, r, code[i], x);
    } else {
      AwaySwapKeepsWord(w, machine, code, k, r, x);
    }
  }

  /** A word of the stack other than the return word. */
  lemma AwayKeepsWord(w: M.World, machine: seq<M.Sys>, code: seq<Cpu>, i: nat, j: nat, r: Rid, x: int, whole: bool)
    requires Along(w, machine, code) && j < |machine| && Away(machine, i, j, r) && M.Runs(machine[j], r) && r in w.at
    requires M.StackWord(w.at[r], x) && x != Get(code[i].regs, RSP)
    requires forall k :: i < k < j ==> CodeKeeps(machine, code, k, x, whole)
    ensures Agree(whole, Load(machine[j].cpu.mem, x), Load(code[i].mem, x))
  {
    forall k | i <= k < j
      ensures SwapKeeps(machine, code, k, x)
    {
      EachSwapKeepsWord(w, machine, code, i, j, k, r, x);
    }
    KeptThroughout(machine, code, i, j, x, whole);
  }

  lemma MachineKeepsWord(w: M.World, machine: seq<M.Sys>, code: seq<Cpu>, i: nat, j: nat, r: Rid, x: int, whole: bool)
    requires Along(w, machine, code) && j < |machine| && Away(machine, i, j, r) && M.Runs(machine[j], r) && r in w.at
    requires M.StackWord(w.at[r], x) && forall k :: i < k < j ==> CodeKeeps(machine, code, k, x, whole)
    ensures Agree(whole, Load(machine[j].cpu.mem, x), Load(code[i].mem, x))
  {
    if x == Get(code[i].regs, RSP) {
      MachineRoundTrip(w, machine, code, i, j, r);
    } else {
      AwayKeepsWord(w, machine, code, i, j, r, x, whole);
    }
  }

  /** `code` leaves the stacks of the suspended routines alone, but for revents_ of the channels
      that it has polled: set_revents stores into the lower half of a word, the upper half of which
      is index_. */
  ghost predicate StoresOnlyRevents(w: M.World, s: State, a: Action, m: M.Sys, code: Cpu) {
    forall q: Rid, x :: q in w.at && q in m.env.ready && M.StackWord(w.at[q], x) ==>
      || Load(code.mem, x) == Load(m.cpu.mem, x)
      || (Reports(s, a, q) && x == w.at[q].revents && Upper(Load(code.mem, x)) == Upper(Load(m.cpu.mem, x)))
  }

  ghost predicate StoreOnlyRevents(w: M.World, states: seq<State>, actions: seq<Action>, machine: seq<M.Sys>,
                                   code: seq<Cpu>)
    requires |actions| == |code| < |states| == |machine|
  {
    forall k :: 0 <= k < |actions| ==> StoresOnlyReventsAt(w, states, actions, machine, code, k)
  }

  ghost predicate StoresOnlyReventsAt(w: M.World, states: seq<State>, actions: seq<Action>, machine: seq<M.Sys>,
                                      code: seq<Cpu>, k: nat)
    requires k < |actions| == |code| < |states| == |machine|
  {
    StoresOnlyRevents(w, states[k], actions[k], machine[k], code[k])
  }

  /** Some poll between states[i] and states[j] has reported the descriptor of `r`. */
  ghost predicate ReportedWithin(states: seq<State>, actions: seq<Action>, i: nat, j: nat, r: Rid)
    requires j <= |actions| < |states|
  {
    exists k :: i < k < j && Reports(states[k], actions[k], r)
  }

  lemma CodeDisturbs(w: M.World, states: seq<State>, actions: seq<Action>, machine: seq<M.Sys>, code: seq<Cpu>,
          i: nat, j: nat, k: nat, r: Rid, x: int)
    requires |actions| == |code| < |states| == |machine| && StoreOnlyRevents(w, states, actions, machine, code)
    requires i < k < j <= |code| && r in w.at && r in machine[k].env.ready && M.StackWord(w.at[r], x)
    ensures CodeKeeps(machine, code, k, x, x != w.at[r].revents || !ReportedWithin(states, actions, i, j, r))
  {
    assert StoresOnlyReventsAt(w, states, actions, machine, code, k);
  }

  lemma AwayIsReady(w: M.World, machine: seq<M.Sys>, code: seq<Cpu>, i: nat, j: nat, k: nat, r: Rid)
    requires Along(w, machine, code) && i < k < j < |machine| && Away(machine, i, j, r)
    ensures r in machine[k].env.ready
  {
    AwayTill(machine, i, j, k + 1, r);
    StaysSuspended(w, machine, code, i, k + 1, r);
  }

  lemma AwayTill(machine: seq<M.Sys>, i: nat, j: nat, k: nat, r: Rid)
    requires i + 1 < k <= j < |machine| && Away(machine, i, j, r)
    ensures Away(machine, i, k, r)
  {
  }

  lemma ServerKeepsWord(w: M.World, states: seq<State>, actions: seq<Action>, machine: seq<M.Sys>, code: seq<Cpu>,
          i: nat, j: nat, r: Rid, x: int, whole: bool)
    requires IsRun(states, actions) && NoWrongCancel(states, actions) && Lockstep(w, states, machine, code)
    requires StoreOnlyRevents(w, states, actions, machine, code)
    requires j < |states| && AwayFrom(states, i, j, r) && r in w.at && M.StackWord(w.at[r], x)
    requires whole == (x != w.at[r].revents || !ReportedWithin(states, actions, i, j, r))
    ensures Agree(whole, Load(machine[j].cpu.mem, x), Load(code[i].mem, x))
  {
    LockstepIsAlong(w, states, actions, machine, code, r);
    SameAway(states, machine, i, j, r);
    CodeKeepsThroughout(w, states, actions, machine, code, i, j, r, x, whole);
    MachineKeepsWord(w, machine, code, i, j, r, x, whole);
  }

  lemma CodeKeepsThroughout(w: M.World, states: seq<State>, actions: seq<Action>, machine: seq<M.Sys>, code: seq<Cpu>,
          i: nat, j: nat, r: Rid, x: int, whole: bool)
    requires |actions| == |code| < |states| == |machine| && StoreOnlyRevents(w, states, actions, machine, code)
    requires Along(w, machine, code) && j < |machine| && Away(machine, i, j, r)
    requires r in w.at && M.StackWord(w.at[r], x)
    requires whole == (x != w.at[r].revents || !ReportedWithin(states, actions, i, j, r))
    ensures forall k :: i < k < j ==> CodeKeeps(machine, code, k, x, whole)
  {
    forall k | i < k < j
      ensures CodeKeeps(machine, code, k, x, whole)
    {
      AwayIsReady(w, machine, code, i, j, k, r);
      CodeDisturbs(w, states, actions, machine, code, i, j, k, r, x);
    }
  }

  /** So a routine whose channel has been reported is in addEpoll all the while. */
  lemma ReportedWhileParked(states: seq<State>, actions: seq<Action>, i: nat, j: nat, r: Rid)
    requires IsRun(states, actions) && NoWrongCancel(states, actions) && j < |states| && AwayFrom(states, i, j, r)
    requires ReportedWithin(states, actions, i, j, r)
    ensures At(states[i + 1].pc, r).Parked?
  {
    var k :| i < k < j && Reports(states[k], actions[k], r);
    PcStaysWhileAway(states, actions, i + 1, k, r);
  }

  /** While a routine is away, its stack stays as it was, but for revents_ of its Channel, which
      changes only if a poll reports the Channel; the routine is in addEpoll then. */
  lemma ServerStackKept(w: M.World, states: seq<State>, actions: seq<Action>, machine: seq<M.Sys>, code: seq<Cpu>,
                        i: nat, j: nat, r: Rid, x: int)
    requires IsRun(states, actions) && NoWrongCancel(states, actions) && Lockstep(w, states, machine, code)
    requires StoreOnlyRevents(w, states, actions, machine, code)
    requires j < |states| && AwayFrom(states, i, j, r) && r in w.at && M.StackWord(w.at[r], x)
    ensures var before, after := Load(code[i].mem, x), Load(machine[j].cpu.mem, x);
            if x == w.at[r].revents && ReportedWithin(states, actions, i, j, r)
            then At(states[i + 1].pc, r).Parked? && Upper(after) == Upper(before)
            else after == before
  {
    ServerKeepsWord(w, states, actions, machine, code, i, j, r, x,
                    x != w.at[r].revents || !ReportedWithin(states, actions, i, j, r));
    if ReportedWithin(states, actions, i, j, r) {
      ReportedWhileParked(states, actions, i, j, r);
    }
  }
}
