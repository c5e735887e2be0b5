/** What the invariant means for every run of the server. */
module Server {
  import opened Wrappers
  import opened Routines
  import opened Timers
  import opened EpollSpec
  import opened Reactor
  import opened ReactorInvariant
  import opened ReactorSteps

  // One step

  /** addEpoll cancels its timer, and find has returned an entry of the same deadline that belongs
      to another routine. */
  ghost predicate CancelsAnother(s: State, a: Action) {
    a.Deregister? && At(s.pc, Running(s.env.stack)).Parked? && !FindsOwn(s.heap, OwnEntry(s), a.found)
  }

  /** Main reaches the channel of a routine that a timer has resumed since the poll. */
  ghost predicate DispatchesOvertaken(s: State, a: Action)
    requires Enabled(s, a)
  {
    a.Dispatch? && s.batch[0] != TIMERFD_CHANNEL && Chan(s, s.batch[0]).owner in s.overtaken
  }

  /** handleRead starts at the very microsecond of a live deadline. */
  ghost predicate ExpiresAtDeadline(s: State, a: Action)
    requires Enabled(s, a)
  {
    a.Dispatch? && s.batch[0] == TIMERFD_CHANNEL && exists e :: e in s.heap && e.when == s.clock
  }

  /** The step keeps the invariant, and goes wrong in exactly two ways. */
  ghost predicate StepIsSound(s: State, a: Action)
    requires Enabled(s, a)
  {
    && (Exec(s, a).Ok? ==> Inv(Exec(s, a).value))
    && (Exec(s, a) == Fault(DanglingChannel) <==> DispatchesOvertaken(s, a))
    && (Exec(s, a) == Fault(HeapAssertion) <==> ExpiresAtDeadline(s, a))
    && (Exec(s, a).Fault? ==> Exec(s, a).error in {DanglingChannel, HeapAssertion})
  }

  /** The steps of workers and of the acceptor. */
  lemma RoutineStepKeeps(s: State, a: Action)
    requires Inv(s) && Enabled(s, a) && !CancelsAnother(s, a)
    requires a.GoIdle? || a.TakeTask? || a.Register? || a.Deregister? || a.Echo? || a.AcceptFails? || a.Accepted?
    ensures Exec(s, a).Ok? && Inv(Exec(s, a).value)
  {
    match a
    case GoIdle => GoIdleKeeps(s);
    case TakeTask => TakeTaskKeeps(s);
    case Register(later) => ParkKeeps(s, Running(s.env.stack), At(s.pc, Running(s.env.stack)).fd, later);
    case Deregister(found) => DeregisterKeeps(s, found);
    case Echo(readRet, writeRet, again) => EchoKeeps(s, readRet, writeRet, again);
    case AcceptFails(later) => ParkKeeps(s, Running(s.env.stack), s.listenFd, later);
    case Accepted(fd) => AcceptedKeeps(s, fd);
  }

  /** The steps of main, but for the dispatch of a channel, and the clock. */
  lemma MainStepKeeps(s: State, a: Action)
    requires Inv(s) && Enabled(s, a)
    requires a.Tick? || a.Spawn? || a.Poll? || a.EndBatch? || a.FireTimer? || a.FinishTimers?
    ensures Exec(s, a).Ok? && Inv(Exec(s, a).value)
  {
    match a
    case Tick(t) => TickKeeps(s, t);
    case Spawn => SpawnKeeps(s);
    case Poll(ready) => PollKeeps(s, ready);
    case EndBatch => EndBatchKeeps(s);
    case FireTimer => FireTimerKeeps(s);
    case FinishTimers => FinishTimersKeeps(s);
  }

  lemma StepKeeps(s: State, a: Action)
    requires Inv(s) && Enabled(s, a) && !CancelsAnother(s, a)
    ensures StepIsSound(s, a)
  {
    if a.Dispatch? {
      DispatchKeeps(s);
    } else if a.Tick? || a.Spawn? || a.Poll? || a.EndBatch? || a.FireTimer? || a.FinishTimers? {
      MainStepKeeps(s, a);
    } else {
      RoutineStepKeeps(s, a);
    }
  }

  lemma DispatchKeeps(s: State)
    requires Inv(s) && Enabled(s, Dispatch)
    ensures StepIsSound(s, Dispatch)
  {
    LiveEntry(s);
    if s.batch[0] == TIMERFD_CHANNEL {
      DispatchTimerFdKeeps(s);
    } else if Chan(s, s.batch[0]).owner !in s.overtaken {
      DispatchChannelKeeps(s);
    }
  }

  /** A cancel keeps the invariant if and only if it erases no entry of another routine. */
  lemma CancelIsSafeIffOwn(s: State, found: nat)
    requires Inv(s) && Enabled(s, Deregister(found))
    ensures Exec(s, Deregister(found)).Ok?
    ensures Inv(Exec(s, Deregister(found)).value) <==> !CancelsAnother(s, Deregister(found))
  {
    if CancelsAnother(s, Deregister(found)) {
      OwnEntryQueued(s, found);
      WrongCancel(s, found);
    } else {
      DeregisterKeeps(s, found);
    }
  }

  /** When an entry has the deadline of the running routine's timer, that timer is queued. */
  lemma OwnEntryQueued(s: State, k: nat)
    requires Inv(s) && At(s.pc, Running(s.env.stack)).Parked?
    requires k < |s.heap| && s.heap[k].when == OwnEntry(s).when
    ensures OwnEntry(s) in s.heap
  {
    WhoRuns(s.routineNum, s.env, s.pc);
    assert TimerOfParked(s.env.stack, s.pc, s.heap, s.timers, Running(s.env.stack));
    assert s.heap[k] in s.heap;
  }

  /** Erasing another routine's entry leaves a live timer whose owner has left addEpoll. */
  lemma WrongCancel(s: State, found: nat)
    requires Inv(s) && At(s.pc, Running(s.env.stack)).Parked?
    requires found < |s.heap| && s.heap[found].when == OwnEntry(s).when && s.heap[found] != OwnEntry(s)
    requires OwnEntry(s) in s.heap
    ensures Enabled(s, Deregister(found))
    ensures Exec(s, Deregister(found)).Ok? && !Inv(Exec(s, Deregister(found)).value)
  {
    var r := Running(s.env.stack);
    WhoRuns(s.routineNum, s.env, s.pc);
    assert Registered(s.pc, s.epoll, s.chans, r) && TimerOfParked(s.env.stack, s.pc, s.heap, s.timers, r);
    var e := EntryOf(s.pc, s.timers, r);
    EraseKeeps(s.heap, found);
    var s' := Exec(s, Deregister(found)).value;
    assert e in s'.heap && !OwnedTimer(s'.pc, s'.timers, e);
  }

  /** Whichever entry find returns, the cancel is safe, exactly when no other live timer has the
      same deadline. */
  lemma CancelIsSafeIffUnshared(s: State)
    requires Inv(s) && At(s.pc, Running(s.env.stack)).Parked?
    ensures (forall found: nat :: MayFind(s.heap, OwnEntry(s).when, found) ==>
               Exec(s, Deregister(found)).Ok? && Inv(Exec(s, Deregister(found)).value))
            <==> Unshared(s.heap, OwnEntry(s).when)
  {
    var when := OwnEntry(s).when;
    if Unshared(s.heap, when) {
      forall found: nat | MayFind(s.heap, when, found)
        ensures Exec(s, Deregister(found)).Ok? && Inv(Exec(s, Deregister(found)).value)
      {
        UnsharedFindsOwn(s, found);
        CancelIsSafeIffOwn(s, found);
      }
    } else {
      var i, j :| 0 <= i < j < |s.heap| && s.heap[i].when == when == s.heap[j].when;
      OwnEntryQueued(s, i);
      WrongCancel(s, if s.heap[i] == OwnEntry(s) then j else i);
    }
  }

  lemma UnsharedFindsOwn(s: State, found: nat)
    requires Inv(s) && At(s.pc, Running(s.env.stack)).Parked? && Unshared(s.heap, OwnEntry(s).when)
    ensures !CancelsAnother(s, Deregister(found))
  {
    if found < |s.heap| && s.heap[found].when == OwnEntry(s).when {
      OwnEntryQueued(s, found);
    }
  }

  /** When no two timers have the same deadline, no cancel goes wrong. */
  lemma DistinctDeadlinesSuffice(s: State, a: Action)
    requires Inv(s) && forall t, u :: 0 <= t < u < |s.timers| ==> s.timers[t].when != s.timers[u].when
    ensures !CancelsAnother(s, a)
  {
    forall i, j | 0 <= i < j < |s.heap|
      ensures s.heap[i].when != s.heap[j].when
    {
      assert s.heap[i] in s.heap && OwnedTimer(s.pc, s.timers, s.heap[i]);
      assert s.heap[j] in s.heap && OwnedTimer(s.pc, s.timers, s.heap[j]);
    }
    if a.Deregister? && At(s.pc, Running(s.env.stack)).Parked? {
      UnsharedFindsOwn(s, a.found);
    }
  }

  // Runs

  /** A run of the server from the entry of start(): `states[i + 1]` follows `states[i]` by
      `actions[i]`. */
  ghost predicate IsRun(states: seq<State>, actions: seq<Action>) {
    && |states| == |actions| + 1
    && LegalStart(states[0].listenFd, states[0].timerFd, states[0].open, states[0].clock)
    && states[0] == Init(states[0].routineNum, states[0].listenFd, states[0].timerFd, states[0].open, states[0].clock)
    && (forall i :: 0 <= i < |actions| ==> Steps(states[i], actions[i], states[i + 1]))
  }

  ghost predicate Steps(s: State, a: Action, s': State) {
    Enabled(s, a) && Exec(s, a) == Ok(s')
  }

  /** In no step of the run does a cancel erase the entry of another routine. */
  ghost predicate NoWrongCancel(states: seq<State>, actions: seq<Action>)
    requires |states| > |actions|
  {
    forall i :: 0 <= i < |actions| ==> !CancelsAnother(states[i], actions[i])
  }

  /** The invariant holds in every state of every run. */
  lemma {:induction false} RunsKeepInv(states: seq<State>, actions: seq<Action>, i: nat)
    requires IsRun(states, actions) && NoWrongCancel(states, actions) && i < |states|
    ensures Inv(states[i])
  {
    if i == 0 {
      InitInv(states[0].routineNum, states[0].listenFd, states[0].timerFd, states[0].open, states[0].clock);
    } else {
      RunsKeepInv(states, actions, i - 1);
      assert Steps(states[i - 1], actions[i - 1], states[i]);
      StepKeeps(states[i - 1], actions[i - 1]);
    }
  }

  /** States of runs in which no cancel ever erases the entry of another routine. */
  ghost predicate Reachable(s: State) {
    exists states, actions ::
      IsRun(states, actions) && NoWrongCancel(states, actions) && states[|actions|] == s
  }

  lemma ReachableInv(s: State)
    requires Reachable(s)
    ensures Inv(s)
  {
    var states, actions :| IsRun(states, actions) && NoWrongCancel(states, actions) && states[|actions|] == s;
    RunsKeepInv(states, actions, |actions|);
  }

  /** In every run, the next step fails no assertion and touches no dead object, but for two
      cases that are visible beforehand. In particular no descriptor is registered twice, every
      removal finds its own channel, no timer is used after reset deleted it, CallStack_ is
      never left, no swap loads dead registers, and close is only called on open descriptors. */
  lemma GoesWrongOnlyAt(s: State, a: Action)
    requires Reachable(s) && Enabled(s, a) && !CancelsAnother(s, a)
    ensures Exec(s, a).Ok? <==> !DispatchesOvertaken(s, a) && !ExpiresAtDeadline(s, a)
    ensures Exec(s, a) == Fault(DanglingChannel) <==> DispatchesOvertaken(s, a)
    ensures Exec(s, a) == Fault(HeapAssertion) <==> ExpiresAtDeadline(s, a)
  {
    ReachableInv(s);
    StepKeeps(s, a);
  }

  /** epoll_wait reports any registered descriptors, at most 1024, each once, and the timerfd
      among them only when its time has come. */
  ghost predicate MayBeReady(s: State, ready: seq<int>) {
    && |ready| <= 1024 && (forall fd :: fd in ready ==> fd in s.epoll.channels)
    && (forall i, j :: 0 <= i < j < |ready| ==> ready[i] != ready[j])
    && (s.timerFd in ready ==> s.armed.armed.Some? && s.armed.armed.value <= s.clock)
  }

  /** The running routine has exactly one piece of code to go on with, whatever the kernel answers. */
  ghost predicate GoesOn(s: State) {
    match At(s.pc, Running(s.env.stack))
    case NotStarted => false
    case Spawning(_) => Enabled(s, Spawn)
    case Polling => forall ready :: Enabled(s, Poll(ready)) <==> MayBeReady(s, ready)
    case Dispatching => if s.batch != [] then Enabled(s, Dispatch) else Enabled(s, EndBatch)
    case Expiring(all, done, _) => if done < |all| then Enabled(s, FireTimer) else Enabled(s, FinishTimers)
    case Accepting =>
      && (forall later :: s.clock <= later ==> Enabled(s, AcceptFails(later)))
      && (forall fd :: 0 <= fd && fd !in s.open ==> Enabled(s, Accepted(fd)))
    case LoopTop => if TaskFd(s.taskFd, Running(s.env.stack)) == -1 then Enabled(s, GoIdle) else Enabled(s, TakeTask)
    case Registering(_) => forall later :: s.clock <= later ==> Enabled(s, Register(later))
    case Echoing(_, _) => forall readRet, writeRet, again :: Enabled(s, Echo(readRet, writeRet, again))
    case Parked(_, _, _) => exists found :: Enabled(s, Deregister(found))
  }

  /** The server never gets stuck. */
  lemma NeverStuck(s: State)
    requires Reachable(s)
    ensures GoesOn(s)
  {
    ReachableInv(s);
    IsSomewhere(s);
    var p := At(s.pc, Running(s.env.stack));
    if p.Polling? {
      PollGoesOn(s);
    } else if p.Parked? {
      CancelGoesOn(s);
    } else {
      OthersGoOn(s);
    }
  }

  lemma IsSomewhere(s: State)
    requires Inv(s)
    ensures !At(s.pc, Running(s.env.stack)).NotStarted?
  {
    WhoRuns(s.routineNum, s.env, s.pc);
    assert RoutineState(s.routineNum, s.env.stack, s.pc, Running(s.env.stack));
  }

  lemma OthersGoOn(s: State)
    requires var p := At(s.pc, Running(s.env.stack)); !p.NotStarted? && !p.Polling? && !p.Parked?
    ensures GoesOn(s)
  {
    match At(s.pc, Running(s.env.stack))
    case Spawning(_) =>
    case Dispatching =>
    case Expiring(_, _, _) =>
    case Accepting =>
    case LoopTop =>
    case Registering(_) =>
    case Echoing(_, _) =>
  }

  lemma PollGoesOn(s: State)
    requires Inv(s) && At(s.pc, Running(s.env.stack)).Polling?
    ensures GoesOn(s)
  {
    forall ready
      ensures Enabled(s, Poll(ready)) <==> MayBeReady(s, ready)
    {
      ReadyAgrees(s, ready);
    }
  }

  lemma CancelGoesOn(s: State)
    requires At(s.pc, Running(s.env.stack)).Parked?
    ensures GoesOn(s)
  {
    var found := SomeEntry(s.heap, OwnEntry(s).when);
    assert Enabled(s, Deregister(found));
  }

  lemma ReadyAgrees(s: State, ready: seq<int>)
    requires Inv(s)
    ensures MayReport(s, ready) <==> MayBeReady(s, ready)
  {
    if MayReport(s, ready) {
      forall fd | fd in ready
        ensures fd in s.epoll.channels
      {
        assert fd in s.epoll.kernel.Keys;
      }
    }
    if MayBeReady(s, ready) {
      forall i | 0 <= i < |ready|
        ensures ready[i] in s.epoll.kernel
      {
        assert ready[i] in ready && ready[i] in s.epoll.channels.Keys;
      }
    }
  }

  lemma SomeEntry(h: seq<Entry<TimerId>>, when: int) returns (found: nat)
    ensures MayFind(h, when, found)
  {
    found := 0;
    if e :| e in h && e.when == when {
      found :| found < |h| && h[found] == e;
    }
  }

  // Where main is about to poll

  ghost predicate PollPoint(s: State) {
    At(s.pc, Running(s.env.stack)).Polling?
  }

  /** The descriptors under which channels of `r` are registered. */
  ghost function ChannelsOf(s: State, r: Rid): set<int> {
    set fd | fd in s.epoll.channels && Chan(s, s.epoll.channels[fd]).owner == r
  }

  /** The positions of the queue that hold timers of `r`. */
  ghost function TimersOf(s: State, r: Rid): set<nat> {
    set k: nat | k < |s.heap| && TimerOf(s.timers, s.heap[k].timer).owner == r
  }

  /** The positions of `r` on g_readwrite. */
  ghost function TurnsOf(s: State, r: Rid): set<nat> {
    set k: nat | k < |s.idle| && s.idle[k] == r
  }

  ghost predicate ExactlyOne<T(!new)>(xs: set<T>) {
    exists x :: xs == {x}
  }

  /** `w` is on g_readwrite once, and has nothing else. */
  ghost predicate IsIdle(s: State, w: Rid) {
    && (forall fd :: fd in s.conns ==> s.conns[fd] != w)
    && ExactlyOne(TurnsOf(s, w)) && TaskFd(s.taskFd, w) == -1
    && ChannelsOf(s, w) == {} && TimersOf(s, w) == {}
  }

  /** `w` waits for the one connection that it has. */
  ghost predicate Serves(s: State, w: Rid) {
    var fd := Held(s.pc, s.taskFd, w);
    IsWaiting(s, w, fd) && fd in s.conns && s.conns[fd] == w
  }

  /** `r` is suspended in addEpoll, with one channel, for reading and writing `fd`, and one timer. */
  ghost predicate IsWaiting(s: State, r: Rid, fd: int) {
    && At(s.pc, r).Parked? && At(s.pc, r).fd == fd && r !in s.env.stack && TurnsOf(s, r) == {}
    && ChannelsOf(s, r) == {fd} && fd in s.epoll.kernel && s.epoll.kernel[fd] == Interest(7, At(s.pc, r).chan)
    && ExactlyOne(TimersOf(s, r)) && (forall k :: k in TimersOf(s, r) ==> s.heap[k].timer == At(s.pc, r).timer)
  }

  lemma WaitingChannels(s: State, r: Rid)
    requires Inv(s) && 1 <= r
    ensures At(s.pc, r).Parked? ==> ChannelsOf(s, r) == {At(s.pc, r).fd}
    ensures !At(s.pc, r).Parked? ==> ChannelsOf(s, r) == {}
  {
    assert At(s.pc, r).Parked? ==> Registered(s.pc, s.epoll, s.chans, r);
    forall fd | fd in s.epoll.channels && Chan(s, s.epoll.channels[fd]).owner == r
      ensures At(s.pc, r).Parked? && At(s.pc, r).fd == fd
    {
      assert fd != s.timerFd ==> ParkedOn(s.pc, s.chans, fd, s.epoll.channels[fd]);
    }
  }

  lemma WaitingTimers(s: State, r: Rid)
    requires Inv(s) && PollPoint(s) && 1 <= r
    ensures At(s.pc, r).Parked? ==>
              ExactlyOne(TimersOf(s, r)) && forall k :: k in TimersOf(s, r) ==> s.heap[k] == EntryOf(s.pc, s.timers, r)
    ensures !At(s.pc, r).Parked? ==> TimersOf(s, r) == {}
  {
    WhoRuns(s.routineNum, s.env, s.pc);
    OwnedPositions(s.pc, s.heap, s.timers);
    if At(s.pc, r).Parked? {
      var k := OwnPosition(s.env.stack, s.pc, s.heap, s.timers, r);
      assert TimersOf(s, r) == {k};
    }
  }

  lemma OwnedPositions(pc: Pcs, heap: seq<Entry<TimerId>>, timers: seq<Timer>)
    requires forall e :: e in heap ==> OwnedTimer(pc, timers, e)
    ensures forall k :: 0 <= k < |heap| ==> OwnedTimer(pc, timers, heap[k])
  {
    forall k | 0 <= k < |heap|
      ensures OwnedTimer(pc, timers, heap[k])
    {
      assert heap[k] in heap;
    }
  }

  /** Where main runs, outside handleRead, a parked routine's timer is at one position. */
  lemma OwnPosition(stack: seq<Rid>, pc: Pcs, heap: seq<Entry<TimerId>>, timers: seq<Timer>, r: Rid) returns (k: nat)
    requires TimerQueue(stack, pc, heap, timers) && 1 <= r && At(pc, r).Parked?
    requires stack == [MAIN] && !At(pc, MAIN).Expiring?
    ensures k < |heap| && heap[k] == EntryOf(pc, timers, r) && heap[k].timer == At(pc, r).timer
    ensures TimerOf(timers, heap[k].timer).owner == r
    ensures forall j :: 0 <= j < |heap| && TimerOf(timers, heap[j].timer).owner == r ==> j == k
  {
    assert TimerOfParked(stack, pc, heap, timers, r);
    k :| k < |heap| && heap[k] == EntryOf(pc, timers, r);
    OwnedPositions(pc, heap, timers);
  }

  /** No routine is lost: where main is about to poll, every worker is idle, once, or waits for
      its connection with exactly one channel and one timer; the acceptor waits for the
      listening socket; and nobody else has a channel or a timer. */
  lemma NoRoutineIsLost(s: State)
    requires Reachable(s) && PollPoint(s)
    ensures s.env.stack == [MAIN]
    ensures forall w: Rid :: IsWorker(s.routineNum, w) ==> IsIdle(s, w) || Serves(s, w)
    ensures IsWaiting(s, Acceptor(s.routineNum), s.listenFd)
    ensures forall fd :: fd in s.epoll.channels ==>
              fd == s.timerFd || 1 <= Chan(s, s.epoll.channels[fd]).owner <= Acceptor(s.routineNum)
    ensures forall e :: e in s.heap ==> 1 <= TimerOf(s.timers, e.timer).owner <= Acceptor(s.routineNum)
    ensures |s.idle| + |s.conns| == s.routineNum
  {
    ReachableInv(s);
    WhoRuns(s.routineNum, s.env, s.pc);
    forall w: Rid | IsWorker(s.routineNum, w)
      ensures IsIdle(s, w) || Serves(s, w)
    {
      WaitsOrIsIdle(s, w);
    }
    WaitsOrIsIdle(s, Acceptor(s.routineNum));
    OwnersAreRoutines(s);
  }

  lemma WaitsOrIsIdle(s: State, r: Rid)
    requires Inv(s) && PollPoint(s) && 1 <= r <= Acceptor(s.routineNum)
    ensures IsWorker(s.routineNum, r) ==> IsIdle(s, r) || Serves(s, r)
    ensures r == Acceptor(s.routineNum) ==> IsWaiting(s, r, s.listenFd)
  {
    WhoRuns(s.routineNum, s.env, s.pc);
    WaitingChannels(s, r);
    WaitingTimers(s, r);
    assert RoutineState(s.routineNum, s.env.stack, s.pc, r);
    WaitingTurns(s, r);
    if At(s.pc, r).Parked? {
      assert Registered(s.pc, s.epoll, s.chans, r);
    } else {
      IdleHasNothing(s, r);
    }
  }

  lemma WaitingTurns(s: State, r: Rid)
    requires Inv(s) && PollPoint(s) && 1 <= r <= Acceptor(s.routineNum)
    ensures At(s.pc, r).Parked? ==> TurnsOf(s, r) == {}
    ensures !At(s.pc, r).Parked? ==> r in s.idle && ExactlyOne(TurnsOf(s, r))
  {
    WhoRuns(s.routineNum, s.env, s.pc);
    assert RoutineState(s.routineNum, s.env.stack, s.pc, r);
    assert r in s.idle <==> Idle(s.routineNum, s.env.stack, s.pc, r);
    if !At(s.pc, r).Parked? {
      var k: nat :| k < |s.idle| && s.idle[k] == r;
      assert TurnsOf(s, r) == {k};
    }
  }

  lemma OwnersAreRoutines(s: State)
    requires Inv(s)
    ensures forall fd :: fd in s.epoll.channels ==>
              fd == s.timerFd || 1 <= Chan(s, s.epoll.channels[fd]).owner <= Acceptor(s.routineNum)
    ensures forall e :: e in s.heap ==> 1 <= TimerOf(s.timers, e.timer).owner <= Acceptor(s.routineNum)
  {
    forall fd | fd in s.epoll.channels && fd != s.timerFd
      ensures 1 <= Chan(s, s.epoll.channels[fd]).owner <= Acceptor(s.routineNum)
    {
      assert ParkedOn(s.pc, s.chans, fd, s.epoll.channels[fd]);
      assert RoutineState(s.routineNum, s.env.stack, s.pc, Chan(s, s.epoll.channels[fd]).owner);
    }
    forall e | e in s.heap
      ensures 1 <= TimerOf(s.timers, e.timer).owner <= Acceptor(s.routineNum)
    {
      assert OwnedTimer(s.pc, s.timers, e);
      assert RoutineState(s.routineNum, s.env.stack, s.pc, TimerOf(s.timers, e.timer).owner);
    }
  }

  // Connections

  /** Somebody is idle exactly when not every worker has a connection. */
  lemma IdleIffSpare(s: State)
    requires Inv(s) && At(s.pc, Running(s.env.stack)).Accepting?
    ensures |s.idle| + |s.conns| == s.routineNum
  {
    WhoRuns(s.routineNum, s.env, s.pc);
  }

  lemma IdleHasNothing(s: State, w: Rid)
    requires Inv(s) && w in s.idle
    ensures TaskFd(s.taskFd, w) == -1 && forall fd :: fd in s.conns ==> s.conns[fd] != w
  {
    assert Idle(s.routineNum, s.env.stack, s.pc, w);
    assert Held(s.pc, s.taskFd, w) == -1;
  }

  /** `w` takes over the new connection `fd`. */
  ghost predicate HandedTo(s: State, s': State, fd: int, w: Rid) {
    && IsWorker(s.routineNum, w) && (forall f :: f in s.conns ==> s.conns[f] != w)
    && s'.conns == s.conns[fd := w] && s'.refused == s.refused
    && Running(s'.env.stack) == w && TaskFd(s'.taskFd, w) == fd
  }

  lemma HandsOver(s: State, fd: int)
    requires Inv(s) && Enabled(s, Accepted(fd)) && s.idle != []
    ensures Exec(s, Accepted(fd)).Ok? && HandedTo(s, Exec(s, Accepted(fd)).value, fd, s.idle[|s.idle| - 1])
  {
    HandOverSchedule(s, fd);
    IdleHasNothing(s, s.idle[|s.idle| - 1]);
  }

  /** A connection is refused exactly when every worker serves one; otherwise the worker on top
      of g_readwrite, which has none, is resumed with it. */
  lemma RefusedIffAllServe(s: State, fd: int)
    requires Reachable(s) && Enabled(s, Accepted(fd))
    ensures Exec(s, Accepted(fd)).Ok? && |s.conns| <= s.routineNum
    ensures var s' := Exec(s, Accepted(fd)).value;
            if |s.conns| == s.routineNum
            then s' == s.(accepted := s.accepted + 1, refused := s.refused + 1)
            else s.idle != [] && HandedTo(s, s', fd, s.idle[|s.idle| - 1])
  {
    ReachableInv(s);
    IdleIffSpare(s);
    if s.idle != [] {
      HandsOver(s, fd);
    }
  }

  lemma IdleStays(s: State, a: Action, s': State)
    requires Steps(s, a, s') && !a.GoIdle? && !a.Accepted?
    ensures s'.idle == s.idle
  {
    if a.Register? || a.AcceptFails? || a.Deregister? || a.Echo? {
      match a
      case Register(_) =>
      case AcceptFails(_) =>
      case Deregister(_) =>
      case Echo(_, _, _) =>
    } else {
      IdleStaysElsewhere(s, a, s');
    }
  }

  lemma IdleStaysElsewhere(s: State, a: Action, s': State)
    requires Steps(s, a, s') && !a.GoIdle? && !a.Accepted?
    requires !(a.Register? || a.AcceptFails? || a.Deregister? || a.Echo?)
    ensures s'.idle == s.idle
  {
  }

  lemma {:induction false} IdleStaysUntil(states: seq<State>, actions: seq<Action>, i: nat, j: nat)
    requires IsRun(states, actions) && i <= j < |states|
    requires forall n :: i <= n < j ==> !actions[n].GoIdle? && !actions[n].Accepted?
    ensures states[j].idle == states[i].idle
  {
    if i == j {
    } else {
      IdleStaysUntil(states, actions, i, j - 1);
      IdleStays(states[j - 1], actions[j - 1], states[j]);
    }
  }

  /** g_readwrite is a stack: the worker that became idle last is the first to be given a
      connection. */
  lemma LatestIdleServes(states: seq<State>, actions: seq<Action>, i: nat, j: nat)
    requires IsRun(states, actions) && NoWrongCancel(states, actions) && i < j < |actions|
    requires actions[i].GoIdle? && actions[j].Accepted?
    requires forall n :: i < n < j ==> !actions[n].GoIdle? && !actions[n].Accepted?
    ensures HandedTo(states[j], states[j + 1], actions[j].fd, Running(states[i].env.stack))
  {
    assert Steps(states[i], actions[i], states[i + 1]);
    IdleStaysUntil(states, actions, i + 1, j);
    RunsKeepInv(states, actions, j);
    assert Steps(states[j], actions[j], states[j + 1]);
    HandsOver(states[j], actions[j].fd);
  }

  /** At a poll point the idle workers and the open connections make up all workers, and every
      connection accepted so far was refused, was closed, or is open, with a worker of its own. */
  lemma ConnectionsConserved(s: State)
    requires Reachable(s)
    ensures s.accepted == s.refused + s.closed + |s.conns|
    ensures PollPoint(s) ==> |s.idle| + |s.conns| == s.routineNum
    ensures forall fd :: fd in s.conns ==>
              fd in s.open && fd != s.listenFd && fd != s.timerFd && IsWorker(s.routineNum, s.conns[fd])
    ensures forall fd, fd' :: fd in s.conns && fd' in s.conns && fd != fd' ==> s.conns[fd] != s.conns[fd']
  {
    ReachableInv(s);
    WhoRuns(s.routineNum, s.env, s.pc);
  }

  /** The step in which the worker of `fd` closes it. */
  ghost predicate Closes(s: State, a: Action, fd: int) {
    && a.Echo? && !KeepServing(a.readRet, a.writeRet, a.again)
    && At(s.pc, Running(s.env.stack)).Echoing? && At(s.pc, Running(s.env.stack)).fd == fd
  }

  lemma ConnectionsChangeBy(s: State, a: Action)
    requires Enabled(s, a) && Exec(s, a).Ok? && !a.Accepted? && !a.Echo?
    ensures Exec(s, a).value.conns == s.conns
  {
    match a
    case Spawn =>
    case Dispatch =>
    case FireTimer =>
    case FinishTimers =>
    case _ =>
  }

  /** A connection stays with its worker until that worker, and nobody else, closes it. */
  lemma ConnectionStep(s: State, a: Action, s': State, fd: int)
    requires Inv(s) && Steps(s, a, s') && fd in s.conns
    ensures if Closes(s, a, fd)
            then Running(s.env.stack) == s.conns[fd] && fd !in s'.open && fd !in s'.conns && s'.closed == s.closed + 1
            else fd in s'.conns && s'.conns[fd] == s.conns[fd]
  {
    if a.Echo? {
      EchoConnection(s, a, s', fd);
    } else if a.Accepted? {
      assert fd in s.open;
      AcceptedConnection(s, a.fd, s', fd);
    } else {
      ConnectionsChangeBy(s, a);
    }
  }

  lemma AcceptedConnection(s: State, newFd: int, s': State, fd: int)
    requires Steps(s, Accepted(newFd), s') && fd in s.conns && fd in s.open
    ensures fd in s'.conns && s'.conns[fd] == s.conns[fd]
  {
  }

  lemma EchoConnection(s: State, a: Action, s': State, fd: int)
    requires Inv(s) && Steps(s, a, s') && a.Echo? && fd in s.conns
    ensures if Closes(s, a, fd)
            then Running(s.env.stack) == s.conns[fd] && fd !in s'.open && fd !in s'.conns && s'.closed == s.closed + 1
            else fd in s'.conns && s'.conns[fd] == s.conns[fd]
  {
    NotRegisteredAnyMore(s);
    EchoResult(s, a.readRet, a.writeRet, a.again);
  }

  /** What the loop goes by: the result of write when bytes came, of read otherwise; EAGAIN keeps
      the connection in either place. */
  predicate IsKept(readRet: int, writeRet: int, again: bool) {
    || (readRet > 0 && (writeRet > 0 || (writeRet == -1 && again)))
    || (readRet == -1 && again)
  }

  /** What becomes of a connection by the results of read and write: it is kept exactly when
      IsKept says so, and closed otherwise. Nothing requires the bytes read to have been written: a
      kept connection loses them when write takes only a part (0 < writeRet < readRet), or returns
      -1 with EAGAIN, as in Echo(5, -1, true). */
  lemma EchoDecides(s: State, readRet: int, writeRet: int, again: bool)
    requires Reachable(s) && Enabled(s, Echo(readRet, writeRet, again))
    ensures Exec(s, Echo(readRet, writeRet, again)).Ok?
    ensures var s', w := Exec(s, Echo(readRet, writeRet, again)).value, Running(s.env.stack);
            var fd := At(s.pc, w).fd;
            && fd in s.conns && s.conns[fd] == w
            && (fd in s'.conns <==> IsKept(readRet, writeRet, again))
            && if IsKept(readRet, writeRet, again)
               then s'.conns == s.conns && s'.open == s.open && s'.closed == s.closed && At(s'.pc, w) == Registering(fd)
               else && s'.conns == s.conns - {fd} && s'.open == s.open - {fd} && s'.closed == s.closed + 1
                    && At(s'.pc, w) == LoopTop
  {
    ReachableInv(s);
    EchoingOwns(s);
    EchoResult(s, readRet, writeRet, again);
    assert KeepServing(readRet, writeRet, again) == IsKept(readRet, writeRet, again);
  }

  lemma EchoingOwns(s: State)
    requires Inv(s) && At(s.pc, Running(s.env.stack)).Echoing?
    ensures var w := Running(s.env.stack);
            var fd := At(s.pc, w).fd;
            fd in s.conns && s.conns[fd] == w
  {
    WhoRuns(s.routineNum, s.env, s.pc);
    var w := Running(s.env.stack);
    assert Held(s.pc, s.taskFd, w) == At(s.pc, w).fd;
  }

  lemma {:induction false} ServedByOneWorker(states: seq<State>, actions: seq<Action>, i: nat, j: nat, fd: int)
    requires IsRun(states, actions) && NoWrongCancel(states, actions) && i <= j < |states|
    requires fd in states[i].conns && forall k :: i <= k < j ==> !Closes(states[k], actions[k], fd)
    ensures fd in states[j].conns && states[j].conns[fd] == states[i].conns[fd]
  {
    if i == j {
    } else {
      ServedByOneWorker(states, actions, i, j - 1, fd);
      StaysServed(states, actions, j - 1, fd);
    }
  }

  lemma StaysServed(states: seq<State>, actions: seq<Action>, k: nat, fd: int)
    requires IsRun(states, actions) && NoWrongCancel(states, actions) && k < |actions|
    requires fd in states[k].conns && !Closes(states[k], actions[k], fd)
    ensures fd in states[k + 1].conns && states[k + 1].conns[fd] == states[k].conns[fd]
  {
    RunsKeepInv(states, actions, k);
    assert Steps(states[k], actions[k], states[k + 1]);
    ConnectionStep(states[k], actions[k], states[k + 1], fd);
  }

  // Channels

  /** Everything in the kernel's interest set is open, is in channels_, and points to a live
      Channel whose routine is inside addEpoll; where main runs, that routine is suspended. */
  lemma NoDanglingPointers(s: State, fd: int)
    requires Reachable(s) && fd in s.epoll.kernel
    ensures fd in s.open && fd in s.epoll.channels && s.epoll.kernel[fd].ptr == s.epoll.channels[fd]
    ensures var chan := Chan(s, s.epoll.channels[fd]);
            && chan.alive && chan.fd == fd && chan.index == Added && chan.mask == s.epoll.kernel[fd].mask
            && chan.mask == (if fd == s.timerFd then 3 else 7)
            && (fd != s.timerFd ==> ParkedOn(s.pc, s.chans, fd, s.epoll.channels[fd]))
            && (fd != s.timerFd && s.env.stack == [MAIN] ==> chan.owner !in s.env.stack)
  {
    ReachableInv(s);
    if fd != s.timerFd {
      assert ParkedOn(s.pc, s.chans, fd, s.epoll.channels[fd]);
      var r := Chan(s, s.epoll.channels[fd]).owner;
      assert Registered(s.pc, s.epoll, s.chans, r);
      assert RoutineState(s.routineNum, s.env.stack, s.pc, r);
      assert IsWorker(s.routineNum, r) ==> Held(s.pc, s.taskFd, r) == fd;
    }
  }

  /** handleRead deletes its timers only when every owner has cancelled: the timer of a routine
      that is inside addEpoll survives, and is live. */
  lemma DeletedTimersAreForgotten(s: State, r: Rid)
    requires Reachable(s) && Enabled(s, FinishTimers) && At(s.pc, r).Parked? && 1 <= r
    ensures Exec(s, FinishTimers).Ok?
    ensures var s' := Exec(s, FinishTimers).value;
            && At(s'.pc, r) == At(s.pc, r) && !TimerOf(s'.timers, At(s.pc, r).timer).freed
            && EntryOf(s'.pc, s'.timers, r) in s'.heap
  {
    ReachableInv(s);
    NobodyWaits(s);
    ResetResult(s);
    var s' := Exec(s, FinishTimers).value;
    SetPc(s.pc, MAIN, Dispatching);
    assert TimerOfParked(s'.env.stack, s'.pc, s'.heap, s'.timers, r);
  }

  // The call stack

  /** Nesting is at most three deep, and the call stack is disciplined: main at the bottom,
      distinct routines, each resumed by the one below it. Exactly the contexts of the routines
      that are not running may be loaded. */
  lemma NestingIsBounded(s: State)
    requires Reachable(s)
    ensures 1 <= |s.env.stack| <= 3 && Disciplined(s.env)
    ensures forall r: Rid :: r in s.env.ready <==> r < Unborn(s.routineNum, s.pc) && r != Running(s.env.stack)
  {
    ReachableInv(s);
    ShapeBounds(s.routineNum, s.env, s.pc);
  }

  lemma ShapeBounds(n: nat, env: Env, pc: Pcs)
    requires Shape(n, env, pc)
    ensures 1 <= |env.stack| <= 3
    ensures forall r: Rid :: r in env.ready <==> r < Unborn(n, pc) && r != Running(env.stack)
  {
  }

  /** Only main resumes at the bottom of the call stack, and whoever yields has a resumer. */
  lemma YieldsHaveResumers(s: State, a: Action)
    requires Reachable(s) && Enabled(s, a)
    ensures a.GoIdle? || a.Register? || a.AcceptFails? ==> |s.env.stack| >= 2
    ensures a.Dispatch? || a.FireTimer? || a.Spawn? ==> s.env.stack == [MAIN]
  {
    ReachableInv(s);
    WhoRuns(s.routineNum, s.env, s.pc);
  }

  /** Every step leaves the routines alone, resumes one that is not on the call stack, or yields to
      the resumer: what the context switches of a run rely on. */
  ghost predicate RoutineStep(e: Env, e': Env) {
    || e' == e
    || (|e.stack| > 1 && Yield(e) == Ok(e'))
    || (e'.stack != [] && Top(e') !in e.stack && |e.stack| < CAPACITY && Resume(e, Top(e')) == Ok(e'))
  }

  lemma ResumeIsRoutineStep(e: Env, r: Rid)
    requires Disciplined(e) && r !in e.stack && Resume(e, r).Ok?
    ensures RoutineStep(e, Resume(e, r).value)
  {
    ResumeDisciplined(e, r);
  }

  /** Which routine a step resumes, if it resumes one: it is suspended. */
  lemma ResumedBy(s: State, a: Action) returns (r: Rid)
    requires Inv(s) && Enabled(s, a) && Exec(s, a).Ok? && (a.Spawn? || a.Accepted? || a.Dispatch? || a.FireTimer?)
    ensures Exec(s, a).value.env == s.env || (r !in s.env.stack && Resume(s.env, r) == Ok(Exec(s, a).value.env))
  {
    r := Candidate(s, a);
    CandidateResumed(s, a, r);
  }

  /** The routine that a step may resume. */
  ghost predicate IsCandidate(s: State, a: Action, r: Rid)
    requires Enabled(s, a)
  {
    match a
    case Spawn => r == At(s.pc, Running(s.env.stack)).next
    case Accepted(_) => s.idle != [] ==> r == s.idle[|s.idle| - 1]
    case Dispatch => r == Chan(s, s.batch[0]).owner
    case FireTimer =>
      var main := At(s.pc, Running(s.env.stack));
      r == TimerOf(s.timers, main.all[main.done].timer).owner
    case _ => false
  }

  lemma Candidate(s: State, a: Action) returns (r: Rid)
    requires Inv(s) && Enabled(s, a) && Exec(s, a).Ok? && (a.Spawn? || a.Accepted? || a.Dispatch? || a.FireTimer?)
    ensures IsCandidate(s, a, r)
    ensures (a.Accepted? ==> s.idle != []) && (a.Dispatch? ==> s.batch[0] != TIMERFD_CHANNEL) ==> r !in s.env.stack
  {
    WhoRuns(s.routineNum, s.env, s.pc);
    r := MAIN;
    match a
    case Spawn =>
      r := At(s.pc, MAIN).next;
      assert RoutineState(s.routineNum, s.env.stack, s.pc, r);
    case Accepted(fd) =>
      if s.idle != [] {
        r := s.idle[|s.idle| - 1];
        assert r in s.idle && Idle(s.routineNum, s.env.stack, s.pc, r);
      }
    case Dispatch =>
      LiveEntry(s);
      r := Chan(s, s.batch[0]).owner;
    case FireTimer =>
      NextTimer(s);
      r := TimerOf(s.timers, At(s.pc, MAIN).all[At(s.pc, MAIN).done].timer).owner;
  }

  lemma CandidateResumed(s: State, a: Action, r: Rid)
    requires Enabled(s, a) && Exec(s, a).Ok? && IsCandidate(s, a, r)
    ensures var e' := Exec(s, a).value.env;
            if (a.Accepted? ==> s.idle != []) && (a.Dispatch? ==> s.batch[0] != TIMERFD_CHANNEL)
            then Resume(s.env, r) == Ok(e')
            else e' == s.env
  {
  }

  lemma ResumesOnlySuspended(s: State, a: Action, s': State)
    requires Inv(s) && Steps(s, a, s')
    ensures RoutineStep(s.env, s'.env)
  {
    if a.Spawn? || a.Accepted? || a.Dispatch? || a.FireTimer? {
      var r := ResumedBy(s, a);
      if s'.env != s.env {
        ResumeIsRoutineStep(s.env, r);
      }
    } else {
      OtherStep(s, a);
    }
  }

  lemma OtherStep(s: State, a: Action)
    requires Inv(s) && Enabled(s, a) && Exec(s, a).Ok? && !(a.Spawn? || a.Accepted? || a.Dispatch? || a.FireTimer?)
    ensures RoutineStep(s.env, Exec(s, a).value.env)
  {
    if a.GoIdle? || a.Register? || a.AcceptFails? {
      YieldStep(s, a);
    } else {
      SameRoutines(s, a);
    }
  }

  lemma YieldStep(s: State, a: Action)
    requires Enabled(s, a) && Exec(s, a).Ok? && (a.GoIdle? || a.Register? || a.AcceptFails?)
    ensures |s.env.stack| > 1 && Yield(s.env) == Ok(Exec(s, a).value.env)
  {
  }

  lemma SameRoutines(s: State, a: Action)
    requires Enabled(s, a) && Exec(s, a).Ok?
    requires a.Tick? || a.TakeTask? || a.Deregister? || a.Echo? || a.Poll? || a.EndBatch? || a.FinishTimers?
    ensures Exec(s, a).value.env == s.env
  {
  }

  // The batch hypothesis

  /** epoll_wait reports the timerfd after everything else. */
  ghost predicate TimerFdLast(s: State, a: Action) {
    a.Poll? ==> forall i :: 0 <= i < |a.ready| - 1 ==> a.ready[i] != s.timerFd
  }

  /** The timerfd's channel is last in the batch; no timer fires before the batch is through. */
  ghost predicate NothingOvertaken(s: State) {
    && (forall i :: 0 <= i < |s.batch| - 1 ==> s.batch[i] != TIMERFD_CHANNEL)
    && (At(s.pc, MAIN).Expiring? || s.overtaken != {} ==> s.batch == [])
  }

  lemma NothingOvertakenStep(s: State, a: Action)
    requires Inv(s) && NothingOvertaken(s) && TimerFdLast(s, a) && Enabled(s, a) && Exec(s, a).Ok?
    ensures NothingOvertaken(Exec(s, a).value)
  {
    WhoRuns(s.routineNum, s.env, s.pc);
    var r, s' := Running(s.env.stack), Exec(s, a).value;
    if a.Poll? {
      SetPc(s.pc, MAIN, Dispatching);
      forall i | 0 <= i < |s'.batch| - 1
        ensures s'.batch[i] != TIMERFD_CHANNEL
      {
        assert a.ready[i] in s.epoll.channels && ParkedOn(s.pc, s.chans, a.ready[i], s.epoll.channels[a.ready[i]]);
        assert Registered(s.pc, s.epoll, s.chans, s.chans[s.epoll.channels[a.ready[i]]].owner);
      }
    } else {
      BatchUnlessPoll(s, a);
    }
  }

  lemma BatchUnlessPoll(s: State, a: Action)
    requires Enabled(s, a) && Exec(s, a).Ok? && !a.Poll? && s.env.stack != []
    requires MainPc(At(s.pc, Running(s.env.stack))) <==> Running(s.env.stack) == MAIN
    requires a.Spawn? ==> At(s.pc, MAIN).Spawning? && At(s.pc, MAIN).next != MAIN
    ensures var s' := Exec(s, a).value;
            && s'.batch == (if a.Dispatch? then s.batch[1..] else s.batch)
            && (s'.overtaken == s.overtaken || a.FireTimer?)
            && (At(s'.pc, MAIN).Expiring? ==>
                  At(s.pc, MAIN).Expiring? || (a.Dispatch? && s.batch[0] == TIMERFD_CHANNEL))
  {
    BatchStays(s, a);
    if a.Dispatch? || a.FireTimer? || a.FinishTimers? || a.Spawn? || a.EndBatch? {
      MainBecomesExpiring(s, a);
    } else {
      MainStays(s, a);
    }
  }

  lemma BatchStays(s: State, a: Action)
    requires Enabled(s, a) && Exec(s, a).Ok? && !a.Poll?
    ensures var s' := Exec(s, a).value;
            && s'.batch == (if a.Dispatch? then s.batch[1..] else s.batch)
            && (s'.overtaken == s.overtaken || a.FireTimer?)
  {
  }

  lemma MainBecomesExpiring(s: State, a: Action)
    requires Enabled(s, a) && Exec(s, a).Ok? && Running(s.env.stack) == MAIN
    requires a.Dispatch? || a.FireTimer? || a.FinishTimers? || a.Spawn? || a.EndBatch?
    requires a.Spawn? ==> At(s.pc, MAIN).Spawning? && At(s.pc, MAIN).next != MAIN
    ensures At(Exec(s, a).value.pc, MAIN).Expiring? ==>
              At(s.pc, MAIN).Expiring? || (a.Dispatch? && s.batch[0] == TIMERFD_CHANNEL)
  {
  }

  lemma MainStays(s: State, a: Action)
    requires Enabled(s, a) && Exec(s, a).Ok?
    requires MainPc(At(s.pc, Running(s.env.stack))) <==> Running(s.env.stack) == MAIN
    requires !(a.Poll? || a.Dispatch? || a.FireTimer? || a.FinishTimers? || a.Spawn? || a.EndBatch?)
    ensures At(Exec(s, a).value.pc, MAIN) == At(s.pc, MAIN)
  {
    match a
    case Tick(_) =>
    case Register(_) =>
    case AcceptFails(_) =>
    case Deregister(_) =>
    case Echo(_, _, _) =>
    case _ =>
  }

  lemma StillNothingOvertaken(states: seq<State>, actions: seq<Action>, i: nat)
    requires IsRun(states, actions) && NoWrongCancel(states, actions) && i < |actions|
    requires NothingOvertaken(states[i]) && TimerFdLast(states[i], actions[i])
    ensures NothingOvertaken(states[i + 1])
  {
    RunsKeepInv(states, actions, i);
    assert Steps(states[i], actions[i], states[i + 1]);
    NothingOvertakenStep(states[i], actions[i]);
  }

  lemma {:induction false} RunsOvertakeNothing(states: seq<State>, actions: seq<Action>, i: nat)
    requires IsRun(states, actions) && NoWrongCancel(states, actions) && i < |states|
    requires forall k :: 0 <= k < |actions| ==> TimerFdLast(states[k], actions[k])
    ensures NothingOvertaken(states[i])
  {
    if i == 0 {
    } else {
      RunsOvertakeNothing(states, actions, i - 1);
      StillNothingOvertaken(states, actions, i - 1);
    }
  }

  /** In a run whose batches list the timerfd last, main never meets a dead channel. */
  lemma TimerFdLastIsSafe(states: seq<State>, actions: seq<Action>, a: Action)
    requires IsRun(states, actions) && NoWrongCancel(states, actions)
    requires forall k :: 0 <= k < |actions| ==> TimerFdLast(states[k], actions[k])
    requires Enabled(states[|actions|], a)
    ensures Exec(states[|actions|], a) != Fault(DanglingChannel)
  {
    var s := states[|actions|];
    RunsKeepInv(states, actions, |actions|);
    RunsOvertakeNothing(states, actions, |actions|);
    if !CancelsAnother(s, a) {
      StepKeeps(s, a);
    }
  }
}
