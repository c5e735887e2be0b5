/** The coroutine server of `TcpServer.cpp` as a transition system.

    A step runs the code between two suspension points of the running routine. The results of
    system calls, the passing of time and the readiness of descriptors are part of the step. */
module Reactor {
  import opened Wrappers
  import opened Routines
  import opened Timers
  import opened EpollSpec

  type ChanId = nat
  type TimerId = nat

  /** The channel of the timerfd is constructed first. */
  const TIMERFD_CHANNEL: ChanId := 0
  /** addEpoll asks for everything; TimeHeap's constructor only for reading. */
  const READ_WRITE: Mask := READ_EVENT | WRITE_EVENT
  /** runAfter(3), in microseconds. */
  const TIMEOUT := 3 * MICROS_PER_SECOND
  /** The size of `events_`, the array handed to epoll_wait. */
  const MAX_EVENTS := 1024

  /** A Channel object; `alive` until it leaves its scope. */
  datatype Channel = Channel(fd: int, mask: Mask, index: Index, owner: Rid, alive: bool)

  /** A Timer object; `freed` when `reset` has deleted it. */
  datatype Timer = Timer(owner: Rid, when: int, freed: bool)

  /** Where a routine is, or where it continues when it is next resumed. */
  datatype Pc =
    | NotStarted
    // main: start() and EventLoop::loop()
    | Spawning(next: Rid)
    | Polling
    | Dispatching
    | Expiring(all: seq<Entry<TimerId>>, done: nat, now: int) // inside handleRead
    // accept_routine
    | Accepting
    // readwrite_routine
    | LoopTop
    | Registering(fd: int)
    | Echoing(fd: int, chan: ChanId)
    // inside addEpoll, at its Yield
    | Parked(fd: int, chan: ChanId, timer: TimerId)

  datatype State = State(
    routineNum: nat,
    listenFd: int,
    timerFd: int,
    env: Env,
    pc: map<Rid, Pc>,
    idle: seq<Rid>,          // g_readwrite; the top is last
    taskFd: map<Rid, int>,   // tsk->fd
    epoll: View<ChanId>,
    chans: seq<Channel>,     // every Channel ever constructed
    heap: seq<Entry<TimerId>>,
    timers: seq<Timer>,      // every Timer ever allocated
    armed: TimerFd,
    clock: int,
    batch: seq<ChanId>,      // the entries of activeChannels_ still to dispatch
    open: set<int>,          // the descriptors of the process
    // History, read by no step
    conns: map<int, Rid>,    // the open connections and the task each was given to
    accepted: nat, refused: nat, closed: nat,
    fired: seq<TimerId>,     // timers whose run() was called, in order
    cancelled: seq<TimerId>, // timers erased by delTimer, in order
    overtaken: set<Rid>      // routines resumed by a timer since the last poll
  )

  datatype Action =
    | Tick(t: int)
    | Spawn
    | GoIdle
    | TakeTask
    | Register(later: int)
    | Deregister(found: nat)
    | Echo(readRet: int, writeRet: int, again: bool)
    | AcceptFails(later: int)
    | Accepted(fd: int)
    | Poll(ready: seq<int>)
    | Dispatch
    | EndBatch
    | FireTimer
    | FinishTimers

  // Lookups; an identifier that was never handed out denotes no usable object

  function At(pc: map<Rid, Pc>, r: Rid): Pc {
    if r in pc then pc[r] else NotStarted
  }

  function TaskFd(taskFd: map<Rid, int>, r: Rid): int {
    if r in taskFd then taskFd[r] else -1
  }

  function Chan(s: State, c: ChanId): Channel {
    if c < |s.chans| then s.chans[c] else Channel(-1, NONE_EVENT, New, MAIN, false)
  }

  function TimerOf(timers: seq<Timer>, t: TimerId): Timer {
    if t < |timers| then timers[t] else Timer(MAIN, 0, true)
  }

  function SetChan(s: State, c: ChanId, x: Channel): seq<Channel> {
    if c < |s.chans| then s.chans[c := x] else s.chans
  }

  function Running(stack: seq<Rid>): Rid {
    if stack == [] then MAIN else stack[|stack| - 1]
  }

  /** start() creates the workers 1 to `n`, then the acceptor. */
  predicate IsWorker(n: nat, r: Rid) {
    1 <= r <= n
  }

  function Acceptor(n: nat): Rid {
    n + 1
  }

  /** After the constructors of EventLoop, Epoll and TimeHeap, on entry to start(). */
  function Init(n: nat, listenFd: int, timerFd: int, open: set<int>, clock: int): State {
    State(n, listenFd, timerFd, INITIAL, map[MAIN := Spawning(1)], [], map[],
          View(map[timerFd := TIMERFD_CHANNEL], map[timerFd := Interest(READ_EVENT, TIMERFD_CHANNEL)]),
          [Channel(timerFd, READ_EVENT, Added, MAIN, true)],
          [], [], TimerFd(None, 0), clock, [], open,
          map[], 0, 0, 0, [], [], {})
  }

  predicate LegalStart(listenFd: int, timerFd: int, open: set<int>, clock: int) {
    && 0 <= listenFd && 0 <= timerFd && listenFd != timerFd
    && {listenFd, timerFd} <= open && 0 <= clock
  }

  // What the kernel may answer

  /** epoll_wait: registered descriptors, each at most once; the timerfd only when it is
      readable. */
  ghost predicate MayReport(s: State, ready: seq<int>) {
    && |ready| <= MAX_EVENTS
    && (forall i, j :: 0 <= i < j < |ready| ==> ready[i] != ready[j])
    && (forall i :: 0 <= i < |ready| ==>
          ready[i] in s.epoll.kernel && (ready[i] == s.timerFd ==> Pending(s.armed, s.clock)))
  }

  /** The entries that multimap::find may return for a deadline. */
  predicate MayFind(h: seq<Entry<TimerId>>, when: int, found: nat) {
    (forall e :: e in h ==> e.when != when) || (found < |h| && h[found].when == when)
  }

  ghost predicate Enabled(s: State, a: Action) {
    var pc := At(s.pc, Running(s.env.stack));
    match a
    case Tick(t) => s.clock <= t
    case Spawn => pc.Spawning?
    case GoIdle => pc.LoopTop? && TaskFd(s.taskFd, Running(s.env.stack)) == -1
    case TakeTask => pc.LoopTop? && TaskFd(s.taskFd, Running(s.env.stack)) != -1
    case Register(later) => pc.Registering? && s.clock <= later
    case Deregister(found) => pc.Parked? && MayFind(s.heap, TimerOf(s.timers, pc.timer).when, found)
    case Echo(_, _, _) => pc.Echoing?
    case AcceptFails(later) => pc.Accepting? && s.clock <= later
    case Accepted(fd) => pc.Accepting? && 0 <= fd && fd !in s.open
    case Poll(ready) => pc.Polling? && MayReport(s, ready)
    case Dispatch => pc.Dispatching? && s.batch != []
    case EndBatch => pc.Dispatching? && s.batch == []
    case FireTimer => pc.Expiring? && pc.done < |pc.all|
    case FinishTimers => pc.Expiring? && pc.done >= |pc.all|
  }

  // Pieces of code that several steps share

  function ResumeRoutine(s: State, r: Rid): Outcome<State> {
    var env :- Resume(s.env, r);
    Ok(s.(env := env))
  }

  function YieldRoutine(s: State): Outcome<State> {
    var env :- Yield(s.env);
    Ok(s.(env := env))
  }

  /** The Channel constructor and the first half of addEpoll, in routine `r`: register, set a
      timer, yield. The clock reads `s.clock` when the deadline is computed, and `later` when
      the timerfd is set. */
  function Park(s: State, r: Rid, fd: int, later: int): Outcome<State> {
    var c, t, when := |s.chans|, |s.timers|, s.clock + TIMEOUT;
    var (view, index) :- Update(s.epoll, fd, c, New, READ_WRITE);
    YieldRoutine(s.(
      epoll := view,
      chans := s.chans + [Channel(fd, READ_WRITE, index, r, true)],
      timers := s.timers + [Timer(r, when, false)],
      heap := Insert(s.heap, Entry(when, t)),
      armed := if EarliestChanges(s.heap, when) then Arm(later, when) else s.armed,
      clock := later,
      pc := s.pc[r := Parked(fd, c, t)]))
  }

  /** The second half of addEpoll: removeChannel, then cancel(tmp), which erases whatever
      entry is found under the timer's deadline. */
  function Unpark(s: State, fd: int, c: ChanId, t: TimerId, found: nat): Outcome<State> {
    var view :- Remove(s.epoll, fd, c, Chan(s, c).index);
    var s1 := s.(epoll := view, chans := SetChan(s, c, Chan(s, c).(index := New)));
    if TimerOf(s.timers, t).freed then Fault(FreedTimer)
    else if found < |s.heap| && s.heap[found].when == TimerOf(s.timers, t).when then
      Ok(s1.(heap := Erase(s.heap, found), cancelled := s.cancelled + [s.heap[found].timer]))
    else Ok(s1)
  }

  function DestroyChannel(s: State, c: ChanId): State {
    s.(chans := SetChan(s, c, Chan(s, c).(alive := false)))
  }

  /** close(fd); the kernel forgets a closed descriptor's interest. */
  function CloseConnection(s: State, fd: int): Outcome<State> {
    if fd !in s.open then Fault(BadDescriptor) else
    Ok(s.(open := s.open - {fd}, conns := s.conns - {fd}, closed := s.closed + 1,
          epoll := s.epoll.(kernel := s.epoll.kernel - {fd})))
  }

  // The steps

  /** One iteration of the loops of start(): construct a routine and resume it. */
  function DoSpawn(s: State, i: Rid): Outcome<State> {
    var acceptor := i == Acceptor(s.routineNum);
    ResumeRoutine(s.(pc := s.pc[MAIN := if acceptor then Polling else Spawning(i + 1)]
                               [i := if acceptor then Accepting else LoopTop],
                     taskFd := s.taskFd[i := if acceptor then 0 else -1]), i)
  }

  function DoGoIdle(s: State, w: Rid): Outcome<State> {
    YieldRoutine(s.(idle := s.idle + [w]))
  }

  function DoTakeTask(s: State, w: Rid): State {
    s.(pc := s.pc[w := Registering(TaskFd(s.taskFd, w))], taskFd := s.taskFd[w := -1])
  }

  /** addEpoll returns: a worker goes on to read; the acceptor's Channel leaves its scope. */
  function DoDeregister(s: State, r: Rid, pc: Pc, found: nat): Outcome<State>
    requires pc.Parked?
  {
    var s1 :- Unpark(s, pc.fd, pc.chan, pc.timer, found);
    if r == Acceptor(s.routineNum) then Ok(DestroyChannel(s1.(pc := s.pc[r := Accepting]), pc.chan))
    else Ok(s1.(pc := s.pc[r := Echoing(pc.fd, pc.chan)]))
  }

  /** Whether a connection is kept: `ret` is that of write when read delivered bytes. */
  predicate KeepServing(readRet: int, writeRet: int, again: bool) {
    var ret := if readRet > 0 then writeRet else readRet;
    ret > 0 || (ret == -1 && again)
  }

  function DoEcho(s: State, w: Rid, fd: int, c: ChanId, keep: bool): Outcome<State> {
    var s1 := DestroyChannel(s, c);
    if keep then Ok(s1.(pc := s.pc[w := Registering(fd)]))
    else CloseConnection(s1.(pc := s.pc[w := LoopTop]), fd)
  }

  /** accept returned a descriptor: refuse it when nobody is idle, hand it over otherwise. */
  function DoAccepted(s: State, fd: int): Outcome<State> {
    if s.idle == [] then
      Ok(s.(accepted := s.accepted + 1, refused := s.refused + 1))
    else
      var w := s.idle[|s.idle| - 1];
      ResumeRoutine(s.(accepted := s.accepted + 1, open := s.open + {fd}, conns := s.conns[fd := w],
                       taskFd := s.taskFd[w := fd], idle := s.idle[..|s.idle| - 1]), w)
  }

  /** fillActiveChannels: the pointers that the kernel kept, in the order it reports them. */
  function ActiveChannels(kernel: map<int, Interest<ChanId>>, ready: seq<int>): seq<ChanId>
    requires forall i :: 0 <= i < |ready| ==> ready[i] in kernel
  {
    seq(|ready|, i requires 0 <= i < |ready| => kernel[ready[i]].ptr)
  }

  function DoPoll(s: State, ready: seq<int>): State
    requires forall i :: 0 <= i < |ready| ==> ready[i] in s.epoll.kernel
  {
    s.(batch := ActiveChannels(s.epoll.kernel, ready), overtaken := {}, pc := s.pc[MAIN := Dispatching])
  }

  /** handleRead up to its loop: read the timerfd, take the expired entries out. */
  function EnterHandleRead(s: State): Outcome<State> {
    var k := LowerBound(s.heap, s.clock);
    if k < |s.heap| && !(s.clock < s.heap[k].when) then Fault(HeapAssertion) else
    Ok(s.(armed := ReadTimerFd(s.armed, s.clock), heap := s.heap[k..],
          pc := s.pc[MAIN := Expiring(s.heap[..k], 0, s.clock)]))
  }

  /** handleEvent on the next entry of activeChannels_. */
  function DoDispatch(s: State): Outcome<State>
    requires s.batch != []
  {
    var c, s1 := s.batch[0], s.(batch := s.batch[1..]);
    if !Chan(s, c).alive then Fault(DanglingChannel)
    else if c == TIMERFD_CHANNEL then EnterHandleRead(s1)
    else ResumeRoutine(s1, Chan(s, c).owner)
  }

  /** run() on the next expired timer. */
  function DoFireTimer(s: State, pc: Pc): Outcome<State>
    requires pc.Expiring? && pc.done < |pc.all|
  {
    var t := pc.all[pc.done].timer;
    var owner := TimerOf(s.timers, t).owner;
    if TimerOf(s.timers, t).freed then Fault(FreedTimer) else
    ResumeRoutine(s.(pc := s.pc[MAIN := pc.(done := pc.done + 1)], fired := s.fired + [t],
                     overtaken := s.overtaken + {owner}), owner)
  }

  ghost predicate InExpired(all: seq<Entry<TimerId>>, t: TimerId) {
    exists e :: e in all && e.timer == t
  }

  /** reset: delete the expired timers, and set the timerfd for the earliest one left. */
  ghost function DoFinishTimers(s: State, all: seq<Entry<TimerId>>): Outcome<State> {
    if exists e :: e in all && TimerOf(s.timers, e.timer).freed then Fault(FreedTimer) else
    var s1 := s.(timers := seq(|s.timers|, t requires 0 <= t < |s.timers| =>
                                 if InExpired(all, t) then s.timers[t].(freed := true) else s.timers[t]),
                 pc := s.pc[MAIN := Dispatching]);
    if s.heap == [] then Ok(s1) else
    var first := TimerOf(s1.timers, s.heap[0].timer);
    if first.freed then Fault(FreedTimer) else
    Ok(if first.when > 0 then s1.(armed := Arm(s.clock, first.when)) else s1)
  }

  ghost function Exec(s: State, a: Action): Outcome<State>
    requires Enabled(s, a)
  {
    var r := Running(s.env.stack);
    var pc := At(s.pc, r);
    match a
    case Tick(t) => Ok(s.(clock := t))
    case Spawn => DoSpawn(s, pc.next)
    case GoIdle => DoGoIdle(s, r)
    case TakeTask => Ok(DoTakeTask(s, r))
    case Register(later) => Park(s, r, pc.fd, later)
    case Deregister(found) => DoDeregister(s, r, pc, found)
    case Echo(readRet, writeRet, again) => DoEcho(s, r, pc.fd, pc.chan, KeepServing(readRet, writeRet, again))
    case AcceptFails(later) => Park(s, r, s.listenFd, later)
    case Accepted(fd) => DoAccepted(s, fd)
    case Poll(ready) => Ok(DoPoll(s, ready))
    case Dispatch => DoDispatch(s)
    case EndBatch => Ok(s.(pc := s.pc[MAIN := Polling]))
    case FireTimer => DoFireTimer(s, pc)
    case FinishTimers => DoFinishTimers(s, pc.all)
  }
}
