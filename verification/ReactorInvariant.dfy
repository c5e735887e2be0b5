/** The invariant of the server: what every step keeps.

    Each part is a predicate on the components that it concerns, so that a step which leaves
    them alone keeps it without further ado. `n` is the number of workers. */
module ReactorInvariant {
  import opened Routines
  import opened Timers
  import opened EpollSpec
  import opened Reactor

  type Pcs = map<Rid, Pc>

  // Routines and the call stack

  predicate MainPc(pc: Pc) {
    pc.Spawning? || pc.Polling? || pc.Dispatching? || pc.Expiring?
  }

  predicate WorkerPc(pc: Pc) {
    pc.LoopTop? || pc.Registering? || pc.Echoing? || pc.Parked?
  }

  /** The first routine that start() has not created yet. */
  function Unborn(n: nat, pc: Pcs): Rid {
    if At(pc, MAIN).Spawning? then At(pc, MAIN).next else n + 2
  }

  /** The call stack is main, main and a routine, or main, the acceptor and a worker. */
  ghost predicate StackShape(n: nat, stack: seq<Rid>) {
    || stack == [MAIN]
    || (|stack| == 2 && stack[0] == MAIN && (IsWorker(n, stack[1]) || stack[1] == Acceptor(n)))
    || (|stack| == 3 && stack[0] == MAIN && stack[1] == Acceptor(n) && IsWorker(n, stack[2]))
  }

  /** What routine `r` may be doing, given the call stack and the routines made so far. */
  ghost predicate RoutineState(n: nat, stack: seq<Rid>, pc: Pcs, r: Rid) {
    if r == MAIN then
      MainPc(At(pc, r))
    else if r >= Unborn(n, pc) then
      At(pc, r).NotStarted? && r !in stack
    else if IsWorker(n, r) then
      WorkerPc(At(pc, r)) && (r !in stack ==> At(pc, r).Parked? || At(pc, r).LoopTop?)
    else
      r == Acceptor(n) && (At(pc, r).Parked? || (At(pc, r).Accepting? && r in stack))
  }

  ghost predicate Shape(n: nat, env: Env, pc: Pcs) {
    && Disciplined(env) && StackShape(n, env.stack)
    && 1 <= Unborn(n, pc) && (At(pc, MAIN).Spawning? ==> Unborn(n, pc) <= Acceptor(n))
    && (forall r: Rid :: r in env.made <==> 1 <= r < Unborn(n, pc))
    && (forall r: Rid :: RoutineState(n, env.stack, pc, r))
    && (|env.stack| == 3 ==> At(pc, Acceptor(n)).Accepting?)
  }

  // The idle stack

  /** `w` waits on g_readwrite: it is suspended at the top of its loop. */
  ghost predicate Idle(n: nat, stack: seq<Rid>, pc: Pcs, w: Rid) {
    IsWorker(n, w) && w !in stack && At(pc, w).LoopTop?
  }

  /** g_readwrite holds exactly the idle workers, each once. Only the running worker can have
      been handed a descriptor that it has not taken yet. */
  ghost predicate IdleStack(n: nat, stack: seq<Rid>, pc: Pcs, idle: seq<Rid>, taskFd: map<Rid, int>) {
    && (forall i, j :: 0 <= i < j < |idle| ==> idle[i] != idle[j])
    && (forall w: Rid :: w in idle <==> Idle(n, stack, pc, w))
    && (forall w: Rid :: IsWorker(n, w) && TaskFd(taskFd, w) != -1 ==>
          0 <= TaskFd(taskFd, w) && w == Running(stack) && At(pc, w).LoopTop?)
  }

  // Connections

  /** A worker in its inner loop has its connection in a local variable. */
  predicate Serving(p: Pc) {
    p.Registering? || p.Echoing? || p.Parked?
  }

  /** The connection that a worker has: handed to it, or in its local variable. */
  function Held(pc: Pcs, taskFd: map<Rid, int>, w: Rid): int {
    if Serving(At(pc, w)) then At(pc, w).fd else TaskFd(taskFd, w)
  }

  /** Open connections and the workers that have one are in bijection. */
  ghost predicate Connections(n: nat, pc: Pcs, taskFd: map<Rid, int>, conns: map<int, Rid>) {
    && (forall w: Rid :: IsWorker(n, w) && (Serving(At(pc, w)) || Held(pc, taskFd, w) != -1) ==>
          Held(pc, taskFd, w) in conns && conns[Held(pc, taskFd, w)] == w)
    && (forall fd :: fd in conns ==> IsWorker(n, conns[fd]) && Held(pc, taskFd, conns[fd]) == fd)
  }

  ghost predicate Descriptors(open: set<int>, conns: map<int, Rid>, listenFd: int, timerFd: int) {
    && 0 <= listenFd && 0 <= timerFd && listenFd != timerFd
    && listenFd in open && timerFd in open
    && (forall fd :: fd in conns ==> 0 <= fd && fd in open && fd != listenFd && fd != timerFd)
  }

  ghost predicate AcceptorListens(n: nat, pc: Pcs, listenFd: int) {
    At(pc, Acceptor(n)).Parked? ==> At(pc, Acceptor(n)).fd == listenFd
  }

  // Channels

  /** The channel of the routine `r`, which is inside addEpoll, is registered. */
  ghost predicate Registered(pc: Pcs, view: View<ChanId>, chans: seq<Channel>, r: Rid)
    requires At(pc, r).Parked?
  {
    var Parked(fd, c, _) := At(pc, r);
    && 0 < c < |chans| && chans[c] == Channel(fd, READ_WRITE, Added, r, true)
    && fd in view.channels && view.channels[fd] == c
    && fd in view.kernel && view.kernel[fd] == Interest(READ_WRITE, c)
  }

  /** Channel `c` belongs to a routine that is inside addEpoll with `fd`. */
  ghost predicate ParkedOn(pc: Pcs, chans: seq<Channel>, fd: int, c: ChanId) {
    && 0 < c < |chans| && 1 <= chans[c].owner
    && var p := At(pc, chans[c].owner);
       p.Parked? && p.fd == fd && p.chan == c
  }

  /** A Channel object lives on the stack of a routine that is inside its scope. */
  ghost predicate InScope(pc: Pcs, chans: seq<Channel>, c: ChanId)
    requires c < |chans|
  {
    var p := At(pc, chans[c].owner);
    1 <= chans[c].owner && (p.Parked? || p.Echoing?) && p.chan == c
  }

  /** The local Channel of a worker that has come back from addEpoll. */
  ghost predicate Deregistered(pc: Pcs, chans: seq<Channel>, r: Rid)
    requires At(pc, r).Echoing?
  {
    var Echoing(fd, c) := At(pc, r);
    0 < c < |chans| && chans[c] == Channel(fd, READ_WRITE, New, r, true)
  }

  ghost predicate TimerFdChannel(view: View<ChanId>, chans: seq<Channel>, timerFd: int) {
    && 0 < |chans| && chans[TIMERFD_CHANNEL] == Channel(timerFd, READ_EVENT, Added, MAIN, true)
    && timerFd in view.channels && view.channels[timerFd] == TIMERFD_CHANNEL
    && timerFd in view.kernel && view.kernel[timerFd] == Interest(READ_EVENT, TIMERFD_CHANNEL)
  }

  /** Beside the timerfd's, the channels are those of the routines inside addEpoll. */
  ghost predicate Registry(pc: Pcs, view: View<ChanId>, chans: seq<Channel>, timerFd: int) {
    && TimerFdChannel(view, chans, timerFd)
    && view.kernel.Keys == view.channels.Keys
    && (forall r: Rid :: 1 <= r && At(pc, r).Parked? ==> Registered(pc, view, chans, r))
    && (forall r: Rid :: 1 <= r && At(pc, r).Echoing? ==> Deregistered(pc, chans, r))
    && (forall fd :: fd in view.channels && fd != timerFd ==> ParkedOn(pc, chans, fd, view.channels[fd]))
    && (forall c: ChanId :: 0 < c < |chans| && chans[c].alive ==> InScope(pc, chans, c))
  }

  // Timers

  /** `e` is the timer of a routine that is inside addEpoll. */
  ghost predicate OwnedTimer(pc: Pcs, timers: seq<Timer>, e: Entry<TimerId>) {
    && e.timer < |timers| && timers[e.timer].when == e.when && 0 < e.when
    && 1 <= timers[e.timer].owner
    && var p := At(pc, timers[e.timer].owner);
       p.Parked? && p.timer == e.timer
  }

  /** The entry under which the timer of the parked routine `r` was inserted. */
  function EntryOf(pc: Pcs, timers: seq<Timer>, r: Rid): Entry<TimerId>
    requires At(pc, r).Parked?
  {
    Entry(TimerOf(timers, At(pc, r).timer).when, At(pc, r).timer)
  }

  /** The expired timers that handleRead has still to run. */
  function Todo(main: Pc): seq<Entry<TimerId>> {
    if main.Expiring? && main.done <= |main.all| then main.all[main.done..] else []
  }

  /** No deadline of the queue equals that of `e`: cancelling `e` erases nothing. */
  ghost predicate Absent(heap: seq<Entry<TimerId>>, e: Entry<TimerId>) {
    forall x :: x in heap ==> x.when != e.when
  }

  /** The timer object of the parked routine `r` is usable. While `r` is suspended the timer is
      live or about to be run; once `r` is running it is live, or cancelling it is harmless. */
  ghost predicate TimerOfParked(stack: seq<Rid>, pc: Pcs, heap: seq<Entry<TimerId>>, timers: seq<Timer>, r: Rid)
    requires At(pc, r).Parked?
  {
    var t := At(pc, r).timer;
    && t < |timers| && timers[t].owner == r && !timers[t].freed
    && var e := EntryOf(pc, timers, r);
       e in heap || (if r in stack then Absent(heap, e) else e in Todo(At(pc, MAIN)))
  }

  ghost predicate TimerQueue(stack: seq<Rid>, pc: Pcs, heap: seq<Entry<TimerId>>, timers: seq<Timer>) {
    && Sorted(heap) && NoRepeats(heap)
    && (forall e :: e in heap ==> OwnedTimer(pc, timers, e))
    && (forall r: Rid :: 1 <= r && At(pc, r).Parked? ==> TimerOfParked(stack, pc, heap, timers, r))
  }

  /** An expired timer that has not been run yet: its owner still waits. */
  ghost predicate ToRun(stack: seq<Rid>, pc: Pcs, timers: seq<Timer>, e: Entry<TimerId>) {
    OwnedTimer(pc, timers, e) && timers[e.timer].owner !in stack
  }

  /** An expired timer that has been run: its owner does not refer to it any more, or is
      running and about to forget it. */
  ghost predicate Ran(stack: seq<Rid>, pc: Pcs, timers: seq<Timer>, e: Entry<TimerId>)
    requires e.timer < |timers|
  {
    var r := timers[e.timer].owner;
    At(pc, r).Parked? && At(pc, r).timer == e.timer ==> r in stack
  }

  /** The local state of handleRead. */
  ghost predicate ExpiredPass(stack: seq<Rid>, pc: Pcs, heap: seq<Entry<TimerId>>, timers: seq<Timer>, clock: int)
    requires At(pc, MAIN).Expiring?
  {
    var Expiring(all, done, now) := At(pc, MAIN);
    && done <= |all| && now <= clock
    && (forall e :: e in all ==>
          e.when < now && e.timer < |timers| && timers[e.timer].when == e.when && !timers[e.timer].freed)
    && (forall e :: e in heap ==> now < e.when)
    && (forall i, j :: 0 <= i < j < |all| ==> all[i].timer != all[j].timer)
    && (forall j :: done <= j < |all| ==> ToRun(stack, pc, timers, all[j]))
    && (forall j :: 0 <= j < done ==> Ran(stack, pc, timers, all[j]))
  }

  // The batch of activeChannels_

  /** A batch entry is the channel on which its owner still waits, unless a timer has resumed
      the owner since the poll; then the object is gone by the time main looks at it. */
  ghost predicate BatchEntry(stack: seq<Rid>, pc: Pcs, chans: seq<Channel>, overtaken: set<Rid>, c: ChanId) {
    c == TIMERFD_CHANNEL ||
    (&& c < |chans| && 1 <= chans[c].owner
     && var r := chans[c].owner;
        if r in overtaken
        then r in stack || !chans[c].alive
        else r !in stack && At(pc, r).Parked? && At(pc, r).chan == c)
  }

  ghost predicate Batch(stack: seq<Rid>, pc: Pcs, chans: seq<Channel>, batch: seq<ChanId>, overtaken: set<Rid>) {
    && (forall i, j :: 0 <= i < j < |batch| ==> batch[i] != batch[j])
    && (forall c :: c in batch ==> BatchEntry(stack, pc, chans, overtaken, c))
    && (At(pc, MAIN).Spawning? || At(pc, MAIN).Polling? ==> batch == [])
  }

  // Accounts

  /** A worker between two connections, not on g_readwrite yet. */
  function InLimbo(n: nat, pc: Pcs, taskFd: map<Rid, int>, running: Rid): nat {
    if IsWorker(n, running) && At(pc, running).LoopTop? && TaskFd(taskFd, running) == -1 then 1 else 0
  }

  /** The number of workers created so far. */
  function Workers(n: nat, pc: Pcs): nat {
    if 1 <= Unborn(n, pc) <= n then Unborn(n, pc) - 1 else n
  }

  /** Routines, tasks, descriptors and channels. */
  ghost predicate Schedule(s: State) {
    && Shape(s.routineNum, s.env, s.pc)
    && IdleStack(s.routineNum, s.env.stack, s.pc, s.idle, s.taskFd)
    && Connections(s.routineNum, s.pc, s.taskFd, s.conns)
    && Descriptors(s.open, s.conns, s.listenFd, s.timerFd)
    && AcceptorListens(s.routineNum, s.pc, s.listenFd)
    && Registry(s.pc, s.epoll, s.chans, s.timerFd)
    // Every worker is idle, has a connection, or is in between
    && |s.idle| + |s.conns| + InLimbo(s.routineNum, s.pc, s.taskFd, Running(s.env.stack)) == Workers(s.routineNum, s.pc)
    // Every accepted connection was refused, was closed, or is open
    && s.accepted == s.refused + s.closed + |s.conns|
  }

  /** Timers, the timerfd and the batch. */
  ghost predicate Clockwork(s: State) {
    && TimerQueue(s.env.stack, s.pc, s.heap, s.timers)
    && 0 <= s.clock
    // Inside handleRead its local state is sound; elsewhere the timerfd covers the queue
    && (At(s.pc, MAIN).Expiring? ==> ExpiredPass(s.env.stack, s.pc, s.heap, s.timers, s.clock))
    && (!At(s.pc, MAIN).Expiring? ==> Covers(s.armed, s.heap))
    && Batch(s.env.stack, s.pc, s.chans, s.batch, s.overtaken)
  }

  ghost predicate Inv(s: State) {
    Schedule(s) && Clockwork(s)
  }

  lemma InitSchedule(n: nat, listenFd: int, timerFd: int, open: set<int>, clock: int)
    requires LegalStart(listenFd, timerFd, open, clock)
    ensures Schedule(Init(n, listenFd, timerFd, open, clock))
  {
  }

  lemma InitInv(n: nat, listenFd: int, timerFd: int, open: set<int>, clock: int)
    requires LegalStart(listenFd, timerFd, open, clock)
    ensures Inv(Init(n, listenFd, timerFd, open, clock))
  {
    InitSchedule(n, listenFd, timerFd, open, clock);
  }
}
