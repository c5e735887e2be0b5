/** Three short runs, of a server with one worker, in which the program goes wrong: what happens
    without the hypotheses of the main theorems. */
module Witnesses {
  import opened Wrappers
  import opened Routines
  import opened Timers
  import opened EpollSpec
  import opened Reactor
  import opened ReactorSteps
  import opened Server

  const LISTEN_FD := 3
  const TIMER_FD := 4
  const CONN_FD := 5
  const WORKER: Rid := 1
  const ACCEPTOR: Rid := 2

  const START: State := Init(1, LISTEN_FD, TIMER_FD, {LISTEN_FD, TIMER_FD}, 0)

  /** find returns the first entry of a deadline, as it does in libstdc++. */
  ghost predicate FindsFirst(s: State, a: Action) {
    a.Deregister? && At(s.pc, Running(s.env.stack)).Parked? ==>
      forall k :: 0 <= k < a.found && k < |s.heap| ==> s.heap[k].when != OwnEntry(s).when
  }

  /** A step of these runs; with `safe`, no cancel erases another routine's entry. */
  ghost predicate Allowed(s: State, a: Action, safe: bool) {
    FindsFirst(s, a) && (safe ==> !CancelsAnother(s, a))
  }

  ghost predicate AllAllowed(states: seq<State>, actions: seq<Action>, safe: bool) {
    |states| > |actions| && forall i :: 0 <= i < |actions| ==> Allowed(states[i], actions[i], safe)
  }

  ghost predicate Possible(s: State, safe: bool) {
    exists states, actions :: IsRun(states, actions) && AllAllowed(states, actions, safe) && states[|actions|] == s
  }

  lemma SafeIsReachable(s: State)
    requires Possible(s, true)
    ensures Reachable(s)
  {
    var states, actions :| IsRun(states, actions) && AllAllowed(states, actions, true) && states[|actions|] == s;
    forall i | 0 <= i < |actions|
      ensures !CancelsAnother(states[i], actions[i])
    {
      assert Allowed(states[i], actions[i], true);
    }
    assert NoWrongCancel(states, actions);
  }

  lemma StartIsPossible(safe: bool)
    ensures Possible(START, safe)
  {
    var states, actions: seq<Action> := [START], [];
    assert IsRun(states, actions) && AllAllowed(states, actions, safe) && states[|actions|] == START;
  }

  lemma Extend(s: State, a: Action, s': State, safe: bool)
    requires Possible(s, safe) && Steps(s, a, s') && Allowed(s, a, safe)
    ensures Possible(s', safe)
  {
    var states, actions :| IsRun(states, actions) && AllAllowed(states, actions, safe) && states[|actions|] == s;
    ExtendRun(states, actions, a, s', safe);
    var states', actions' := states + [s'], actions + [a];
    assert IsRun(states', actions') && AllAllowed(states', actions', safe) && states'[|actions'|] == s';
  }

  lemma ExtendRun(states: seq<State>, actions: seq<Action>, a: Action, s': State, safe: bool)
    requires IsRun(states, actions) && Steps(states[|actions|], a, s')
    requires AllAllowed(states, actions, safe) && Allowed(states[|actions|], a, safe)
    ensures IsRun(states + [s'], actions + [a]) && AllAllowed(states + [s'], actions + [a], safe)
  {
    var states', actions' := states + [s'], actions + [a];
    forall i | 0 <= i < |actions'|
      ensures Steps(states'[i], actions'[i], states'[i + 1]) && Allowed(states'[i], actions'[i], safe)
    {
      assert i < |actions| ==> Steps(states[i], actions[i], states[i + 1]) && Allowed(states[i], actions[i], safe);
    }
  }

  // The states of the runs

  function Waiting(): Pc {
    Parked(CONN_FD, 1, 0)
  }

  function Listening(): Pc {
    Parked(LISTEN_FD, 2, 1)
  }

  function PcOf(main: Pc, worker: Pc, acceptor: Pc): map<Rid, Pc> {
    map[MAIN := main, WORKER := worker, ACCEPTOR := acceptor]
  }

  /** `stack` runs, and the worker was last resumed by `resumer`. */
  function EnvOf(stack: seq<Rid>, resumer: Rid): Env
    requires stack != []
  {
    Env(stack, {WORKER, ACCEPTOR}, {MAIN, WORKER, ACCEPTOR} - {stack[|stack| - 1]},
          map[WORKER := resumer, ACCEPTOR := MAIN])
  }

  /** The channels registered: the timerfd's, and those of the worker and of the acceptor. */
  function ViewOf(worker: bool, acceptor: bool): View<ChanId> {
    View(map[TIMER_FD := 0] + (if worker then map[CONN_FD := 1] else map[])
          + (if acceptor then map[LISTEN_FD := 2] else map[]),
         map[TIMER_FD := Interest(READ_EVENT, 0)]
         + (if worker then map[CONN_FD := Interest(READ_WRITE, 1)] else map[])
         + (if acceptor then map[LISTEN_FD := Interest(READ_WRITE, 2)] else map[]))
  }

  function WorkerChan(index: Index, alive: bool): Channel {
    Channel(CONN_FD, READ_WRITE, index, WORKER, alive)
  }

  function Chans(worker: seq<Channel>, acceptor: bool): seq<Channel> {
    [Channel(TIMER_FD, READ_EVENT, Added, MAIN, true)] + worker
    + (if acceptor then [Channel(LISTEN_FD, READ_WRITE, Added, ACCEPTOR, true)] else [])
  }

  /** Both routines exist; nothing has been accepted. */
  function Fresh(env: Env, pc: map<Rid, Pc>, idle: seq<Rid>, taskFd: map<Rid, int>): State {
    START.(env := env, pc := pc, idle := idle, taskFd := taskFd)
  }

  /** The worker has the connection; `timers` have been set. */
  function Busy(env: Env, pc: map<Rid, Pc>, view: View<ChanId>, chans: seq<Channel>, heap: seq<Entry<TimerId>>,
                timers: seq<Timer>, armed: TimerFd, clock: int, batch: seq<ChanId>): State
  {
    State(1, LISTEN_FD, TIMER_FD, env, pc, [], map[WORKER := -1, ACCEPTOR := 0], view, chans, heap, timers, armed,
          clock, batch, {LISTEN_FD, TIMER_FD, CONN_FD}, map[CONN_FD := WORKER], 1, 0, 0, [], [], {})
  }

  function BothTimers(later: int): seq<Timer> {
    [Timer(WORKER, TIMEOUT, false), Timer(ACCEPTOR, later + TIMEOUT, false)]
  }

  /** Once the acceptor waits: who runs, who resumed the worker last, where main and the worker
      are, the worker's Channel, and whether it has closed its connection. */
  datatype Scene = Scene(stack: seq<Rid>, resumer: Rid, main: Pc, worker: Pc, chan: Channel, closed: bool)

  const LIVE: Channel := WorkerChan(Added, true)
  const LEFT: Channel := WorkerChan(New, true)
  const DEAD: Channel := WorkerChan(New, false)

  function After(x: Scene, heap: seq<Entry<TimerId>>, timers: seq<Timer>, armed: TimerFd, clock: int,
                 batch: seq<ChanId>, idle: seq<Rid>, fired: seq<TimerId>, cancelled: seq<TimerId>,
                 overtaken: set<Rid>): State
    requires x.stack != []
  {
    var open := if x.closed then {LISTEN_FD, TIMER_FD} else {LISTEN_FD, TIMER_FD, CONN_FD};
    var conns := if x.closed then map[] else map[CONN_FD := WORKER];
    State(1, LISTEN_FD, TIMER_FD, EnvOf(x.stack, x.resumer), PcOf(x.main, x.worker, Listening()), idle,
          map[WORKER := -1, ACCEPTOR := 0], ViewOf(x.chan.index.Added?, true), Chans([x.chan], true), heap, timers,
          armed, clock, batch, open, conns, 1, 0, if x.closed then 1 else 0, fired, cancelled, overtaken)
  }

  // The opening: both routines are created, a connection is handed over, and both wait

  function Spawned(): State {
    Fresh(Env([MAIN, WORKER], {WORKER}, {MAIN}, map[WORKER := MAIN]),
          map[MAIN := Spawning(ACCEPTOR), WORKER := LoopTop], [], map[WORKER := -1])
  }

  function Created(): State {
    Fresh(Env([MAIN], {WORKER}, {WORKER}, map[WORKER := MAIN]), map[MAIN := Spawning(ACCEPTOR), WORKER := LoopTop],
          [WORKER], map[WORKER := -1])
  }

  function ToAccept(): State {
    Fresh(EnvOf([MAIN, ACCEPTOR], MAIN), PcOf(Polling, LoopTop, Accepting), [WORKER], map[WORKER := -1, ACCEPTOR := 0])
  }

  function Handed(): State {
    Busy(EnvOf([MAIN, ACCEPTOR, WORKER], ACCEPTOR), PcOf(Polling, LoopTop, Accepting), ViewOf(false, false),
         Chans([], false), [], [], TimerFd(None, 0), 0, []).(taskFd := map[WORKER := CONN_FD, ACCEPTOR := 0])
  }

  function Taken(): State {
    Busy(EnvOf([MAIN, ACCEPTOR, WORKER], ACCEPTOR), PcOf(Polling, Registering(CONN_FD), Accepting),
         ViewOf(false, false), Chans([], false), [], [], TimerFd(None, 0), 0, [])
  }

  /** The worker waits since time 0; the clock reads `later` when it has set the timerfd. */
  function WorkerWaits(later: int): State {
    Busy(EnvOf([MAIN, ACCEPTOR], ACCEPTOR), PcOf(Polling, Waiting(), Accepting), ViewOf(true, false),
         Chans([WorkerChan(Added, true)], false), [Entry(TIMEOUT, 0)], [Timer(WORKER, TIMEOUT, false)],
         TimerFd(Some(TIMEOUT), later), later, [])
  }

  function BothTimed(later: int): seq<Entry<TimerId>> {
    [Entry(TIMEOUT, 0), Entry(later + TIMEOUT, 1)]
  }

  /** Both wait; epoll_wait is called at time `clock`, or has reported `batch`. */
  function Waits(main: Pc, later: int, clock: int, batch: seq<ChanId>): State {
    After(Scene([MAIN], ACCEPTOR, main, Waiting(), LIVE, false), BothTimed(later), BothTimers(later),
          TimerFd(Some(TIMEOUT), later), clock, batch, [], [], [], {})
  }

  /** The acceptor waits since time `later`. */
  function BothWait(later: int): State {
    Waits(Polling, later, later, [])
  }

  lemma YieldFrom(stack: seq<Rid>, resumer: Rid)
    requires |stack| >= 2 && stack[|stack| - 2] in {MAIN, ACCEPTOR} && stack[|stack| - 1] in {WORKER, ACCEPTOR}
             && stack[|stack| - 2] != stack[|stack| - 1]
    ensures Yield(EnvOf(stack, resumer)) == Ok(EnvOf(stack[..|stack| - 1], resumer))
  {
    var e := EnvOf(stack, resumer);
    assert e.ready + {stack[|stack| - 1]} - {stack[|stack| - 2]} == EnvOf(stack[..|stack| - 1], resumer).ready;
  }

  lemma Spawns()
    ensures Steps(START, Spawn, Spawned()) && Steps(Spawned(), GoIdle, Created())
  {
    assert Exec(START, Spawn).value == Spawned();
    assert Exec(Spawned(), GoIdle).value == Created();
  }

  lemma SpawnsAcceptor()
    ensures Steps(Created(), Spawn, ToAccept())
  {
    assert Exec(Created(), Spawn).value.env == ToAccept().env;
    assert Exec(Created(), Spawn).value == ToAccept();
  }

  /** Accepted, given the idle worker that is resumed. */
  lemma HandSteps(s: State, s': State, fd: int, w: Rid, env: Env)
    requires At(s.pc, Running(s.env.stack)).Accepting? && 0 <= fd && fd !in s.open
    requires s.idle == [w] && Resume(s.env, w) == Ok(env)
    requires s' == s.(env := env, idle := [], accepted := s.accepted + 1, open := s.open + {fd},
                      conns := s.conns[fd := w], taskFd := s.taskFd[w := fd])
    ensures Steps(s, Accepted(fd), s')
  {
    assert s.idle[..|s.idle| - 1] == [];
  }

  lemma Hands()
    ensures Steps(ToAccept(), Accepted(CONN_FD), Handed())
  {
    var s, s' := ToAccept(), Handed();
    assert Resume(s.env, WORKER) == Ok(s'.env) by {
      var e := Resume(s.env, WORKER).value;
      assert e.stack == s'.env.stack && e.ready == s'.env.ready && e.resumer == s'.env.resumer;
    }
    assert s.taskFd[WORKER := CONN_FD] == s'.taskFd && s.open + {CONN_FD} == s'.open;
    HandSteps(s, s', CONN_FD, WORKER, s'.env);
  }

  lemma Takes()
    ensures Steps(Handed(), TakeTask, Taken())
  {
    assert Exec(Handed(), TakeTask).value == Taken();
  }

  /** Dispatch of the timerfd, given the position up to which deadlines have passed. */
  lemma EnterSteps(s: State, s': State, k: nat)
    requires At(s.pc, Running(s.env.stack)).Dispatching? && s.batch != [] && s.batch[0] == TIMERFD_CHANNEL
    requires Chan(s, TIMERFD_CHANNEL).alive && LowerBound(s.heap, s.clock) == k
    requires k < |s.heap| ==> s.clock < s.heap[k].when
    requires s' == s.(armed := ReadTimerFd(s.armed, s.clock), heap := s.heap[k..], batch := s.batch[1..],
                      pc := s.pc[MAIN := Expiring(s.heap[..k], 0, s.clock)])
    ensures Steps(s, Dispatch, s')
  {
  }

  /** Echo at the end of the stream, given the running worker. */
  lemma CloseSteps(s: State, s': State, w: Rid, fd: int, c: ChanId, kernel: map<int, Interest<ChanId>>)
    requires Running(s.env.stack) == w && At(s.pc, w) == Echoing(fd, c) && c < |s.chans| && fd in s.open
    requires kernel == s.epoll.kernel - {fd}
    requires s' == s.(pc := s.pc[w := LoopTop], chans := s.chans[c := s.chans[c].(alive := false)],
                      open := s.open - {fd}, conns := s.conns - {fd}, closed := s.closed + 1,
                      epoll := s.epoll.(kernel := kernel))
    ensures Steps(s, Echo(0, 0, false), s')
  {
  }

  /** GoIdle, given where the yield leads. */
  lemma IdleSteps(s: State, s': State, w: Rid, env: Env)
    requires Running(s.env.stack) == w && At(s.pc, w).LoopTop? && TaskFd(s.taskFd, w) == -1 && Yield(s.env) == Ok(env)
    requires s' == s.(env := env, idle := s.idle + [w])
    ensures Steps(s, GoIdle, s')
  {
  }

  /** The maps and sequences of two states agree. */
  ghost predicate SameParts(s: State, s': State) {
    s.env == s'.env && s.pc == s'.pc && s.epoll == s'.epoll && s.chans == s'.chans && s.heap == s'.heap
        && s.timers == s'.timers
  }

  /** What addEpoll does to channels_ and to the kernel's set, for the worker and the acceptor. */
  lemma RegistersWorker()
    ensures Update(ViewOf(false, false), CONN_FD, 1, New, READ_WRITE) == Ok((ViewOf(true, false), Added))
  {
    var u := Update(ViewOf(false, false), CONN_FD, 1, New, READ_WRITE).value.0;
    assert u.channels == ViewOf(true, false).channels && u.kernel == ViewOf(true, false).kernel;
  }

  lemma RegistersAcceptor()
    ensures Update(ViewOf(true, false), LISTEN_FD, 2, New, READ_WRITE) == Ok((ViewOf(true, true), Added))
  {
    var u := Update(ViewOf(true, false), LISTEN_FD, 2, New, READ_WRITE).value.0;
    assert u.channels == ViewOf(true, true).channels && u.kernel == ViewOf(true, true).kernel;
  }

  /** The first half of addEpoll, given what registering, adding a timer and yielding come to. */
  ghost predicate Parks(s: State, s': State, fd: int, later: int, view: View<ChanId>, env: Env) {
    var r, when := Running(s.env.stack), s.clock + TIMEOUT;
    && s.clock <= later && Yield(s.env) == Ok(env)
    && Update(s.epoll, fd, |s.chans|, New, READ_WRITE) == Ok((view, Added))
    && s' == s.(env := env, epoll := view, clock := later, heap := Insert(s.heap, Entry(when, |s.timers|)),
                armed := if EarliestChanges(s.heap, when) then Arm(later, when) else s.armed,
                chans := s.chans + [Channel(fd, READ_WRITE, Added, r, true)],
                timers := s.timers + [Timer(r, when, false)], pc := s.pc[r := Parked(fd, |s.chans|, |s.timers|)])
  }

  lemma RegisterSteps(s: State, s': State, fd: int, later: int, view: View<ChanId>, env: Env)
    requires Parks(s, s', fd, later, view, env) && At(s.pc, Running(s.env.stack)) == Registering(fd)
    ensures Steps(s, Register(later), s')
  {
    ParkResult(s, Running(s.env.stack), fd, later, view);
  }

  lemma ListenSteps(s: State, s': State, later: int, view: View<ChanId>, env: Env)
    requires Parks(s, s', s.listenFd, later, view, env) && At(s.pc, Running(s.env.stack)).Accepting?
    ensures Steps(s, AcceptFails(later), s')
  {
    ParkResult(s, Running(s.env.stack), s.listenFd, later, view);
  }

  lemma WorkerParts(later: int)
    ensures Taken().chans + [WorkerChan(Added, true)] == WorkerWaits(later).chans
    ensures Taken().timers + [Timer(WORKER, TIMEOUT, false)] == WorkerWaits(later).timers
    ensures Taken().pc[WORKER := Waiting()] == WorkerWaits(later).pc
    ensures Insert(Taken().heap, Entry(TIMEOUT, 0)) == WorkerWaits(later).heap
  {
    var e: Entry<TimerId> := Entry(TIMEOUT, 0);
    var h: seq<Entry<TimerId>> := [];
    assert h[..0] == h[0..] == h && [e] == h + [e] + h;
  }

  lemma YieldsToAcceptor()
    ensures Yield(EnvOf([MAIN, ACCEPTOR, WORKER], ACCEPTOR)) == Ok(EnvOf([MAIN, ACCEPTOR], ACCEPTOR))
  {
    YieldFrom([MAIN, ACCEPTOR, WORKER], ACCEPTOR);
    assert [MAIN, ACCEPTOR, WORKER][..2] == [MAIN, ACCEPTOR];
  }

  lemma WorkerParks(later: int)
    requires 0 <= later <= 2
    ensures Parks(Taken(), WorkerWaits(later), CONN_FD, later, ViewOf(true, false), EnvOf([MAIN, ACCEPTOR], ACCEPTOR))
  {
    RegistersWorker();
    YieldsToAcceptor();
    WorkerParts(later);
  }

  lemma WorkerRegisters(later: int)
    requires 0 <= later <= 2
    ensures Steps(Taken(), Register(later), WorkerWaits(later))
  {
    WorkerParks(later);
    RegisterSteps(Taken(), WorkerWaits(later), CONN_FD, later, ViewOf(true, false), EnvOf([MAIN, ACCEPTOR], ACCEPTOR));
  }

  lemma AcceptorRegisters(later: int)
    requires 0 <= later <= 2
    ensures Steps(WorkerWaits(later), AcceptFails(later), BothWait(later))
  {
    RegistersAcceptor();
    assert Yield(EnvOf([MAIN, ACCEPTOR], ACCEPTOR)) == Ok(EnvOf([MAIN], ACCEPTOR)) by {
      YieldFrom([MAIN, ACCEPTOR], ACCEPTOR);
      assert [MAIN, ACCEPTOR][..1] == [MAIN];
    }
    assert Insert([Entry(TIMEOUT, 0)], Entry(later + TIMEOUT, 1)) == BothTimed(later) by {
      assert [Entry(TIMEOUT, 0)][1..] == [];
    }
    var s, s' := WorkerWaits(later), BothWait(later);
    assert s.chans + [Channel(LISTEN_FD, READ_WRITE, Added, ACCEPTOR, true)] == s'.chans;
    assert s.timers + [Timer(ACCEPTOR, later + TIMEOUT, false)] == s'.timers && s.pc[ACCEPTOR := Listening()] == s'.pc;
    ListenSteps(s, s', later, ViewOf(true, true), EnvOf([MAIN], ACCEPTOR));
  }

  lemma Opens(safe: bool)
    ensures Possible(ToAccept(), safe)
  {
    StartIsPossible(safe);
    Spawns();
    Extend(START, Spawn, Spawned(), safe);
    Extend(Spawned(), GoIdle, Created(), safe);
    SpawnsAcceptor();
    Extend(Created(), Spawn, ToAccept(), safe);
  }

  lemma Open(later: int, safe: bool)
    requires 0 <= later <= 2
    ensures Possible(BothWait(later), safe)
  {
    Opens(safe);
    Hands();
    Takes();
    Extend(ToAccept(), Accepted(CONN_FD), Handed(), safe);
    Extend(Handed(), TakeTask, Taken(), safe);
    WorkerRegisters(later);
    Extend(Taken(), Register(later), WorkerWaits(later), safe);
    AcceptorRegisters(later);
    Extend(WorkerWaits(later), AcceptFails(later), BothWait(later), safe);
  }

  /** The worker's second half of addEpoll unregisters its Channel. */
  lemma Unregisters()
    ensures Remove(ViewOf(true, true), CONN_FD, 1, Added) == Ok(ViewOf(false, true))
    ensures Chans([LIVE], true)[1 := LEFT] == Chans([LEFT], true)
  {
    var v := Remove(ViewOf(true, true), CONN_FD, 1, Added).value;
    assert v.channels == ViewOf(false, true).channels && v.kernel == ViewOf(false, true).kernel;
  }

  lemma Destroys()
    ensures Chans([LEFT], true)[1 := DEAD] == Chans([DEAD], true)
            && ViewOf(false, true).kernel - {CONN_FD} == ViewOf(false, true).kernel
  {
  }

  lemma YieldsToMain()
    ensures Yield(EnvOf([MAIN, WORKER], MAIN)) == Ok(EnvOf([MAIN], MAIN))
  {
    YieldFrom([MAIN, WORKER], MAIN);
    assert [MAIN, WORKER][..1] == [MAIN];
  }

  lemma ResumesWorker(resumer: Rid)
    ensures Resume(EnvOf([MAIN], resumer), WORKER) == Ok(EnvOf([MAIN, WORKER], MAIN))
  {
    var e := Resume(EnvOf([MAIN], resumer), WORKER).value;
    var e' := EnvOf([MAIN, WORKER], MAIN);
    assert e.stack == e'.stack && e.ready == e'.ready && e.resumer == e'.resumer;
  }

  // A shared deadline: all timers expire at TIMEOUT, and find returns the first entry

  /** The worker, resumed by its Channel, has cancelled its own timer, if it is not Waiting. */
  function Shared(worker: Pc, chan: Channel): State {
    After(Scene([MAIN, WORKER], MAIN, Dispatching, worker, chan, false),
          if chan.index.Added? then BothTimed(0) else [Entry(TIMEOUT, 1)], BothTimers(0),
          TimerFd(Some(TIMEOUT), 0), 0, [], [], [], if chan.index.Added? then [] else [0], {})
  }

  function WaitingAgain(): Pc {
    Parked(CONN_FD, 3, 2)
  }

  function ViewAgain(worker: bool): View<ChanId> {
    View(ViewOf(false, true).channels + (if worker then map[CONN_FD := 3] else map[]),
         ViewOf(false, true).kernel + (if worker then map[CONN_FD := Interest(READ_WRITE, 3)] else map[]))
  }

  // Each of the following states differs from the one before it by what the step has changed

  /** The worker has kept its connection and registered it again, behind the acceptor's timer. */
  function RegisteredAgain(): State {
    var s := Shared(Registering(CONN_FD), DEAD);
    s.(env := EnvOf([MAIN], MAIN), epoll := ViewAgain(true), chans := s.chans + [LIVE],
       timers := s.timers + [Timer(WORKER, TIMEOUT, false)], heap := [Entry(TIMEOUT, 1), Entry(TIMEOUT, 2)],
       pc := s.pc[WORKER := WaitingAgain()])
  }

  function PollingAgain(): State {
    var s := RegisteredAgain();
    s.(pc := s.pc[MAIN := Polling])
  }

  function ReportedAgain(): State {
    var s := PollingAgain();
    s.(batch := [3], overtaken := {}, pc := s.pc[MAIN := Dispatching])
  }

  function WokenAgain(): State {
    ReportedAgain().(env := EnvOf([MAIN, WORKER], MAIN), batch := [])
  }

  /** The worker has cancelled the acceptor's timer. */
  function Mistaken(): State {
    var s := WokenAgain();
    s.(epoll := ViewAgain(false), chans := s.chans[3 := LEFT], heap := [Entry(TIMEOUT, 2)], cancelled := [0, 1],
       pc := s.pc[WORKER := Echoing(CONN_FD, 3)])
  }

  function Closed(): State {
    var s := Mistaken();
    s.(pc := s.pc[WORKER := LoopTop], chans := s.chans[3 := s.chans[3].(alive := false)], open := s.open - {CONN_FD},
       conns := s.conns - {CONN_FD}, closed := s.closed + 1)
  }

  function IdleOnce(): State {
    Closed().(env := EnvOf([MAIN], MAIN), idle := [WORKER])
  }

  function PollingLate(clock: int): State {
    var s := IdleOnce();
    s.(clock := clock, pc := s.pc[MAIN := Polling])
  }

  function ReportedLate(): State {
    var s := PollingLate(TIMEOUT + 1);
    s.(batch := [TIMERFD_CHANNEL], overtaken := {}, pc := s.pc[MAIN := Dispatching])
  }

  /** In handleRead, the worker's timer of its second addEpoll has expired. */
  function ExpiringLate(): State {
    var s := ReportedLate();
    s.(armed := TimerFd(None, 0), heap := [], batch := [],
       pc := s.pc[MAIN := Expiring([Entry(TIMEOUT, 2)], 0, TIMEOUT + 1)])
  }

  function FiredLate(): State {
    var s := ExpiringLate();
    s.(env := EnvOf([MAIN, WORKER], MAIN), pc := s.pc[MAIN := Expiring([Entry(TIMEOUT, 2)], 1, TIMEOUT + 1)],
       fired := [2], overtaken := {WORKER})
  }

  function IdleTwice(): State {
    FiredLate().(env := EnvOf([MAIN], MAIN), idle := [WORKER, WORKER])
  }

  lemma Reports()
    ensures Steps(BothWait(0), Poll([CONN_FD]), Waits(Dispatching, 0, 0, [1]))
  {
    assert SameParts(Exec(BothWait(0), Poll([CONN_FD])).value, Waits(Dispatching, 0, 0, [1]));
    assert ActiveChannels(ViewOf(true, true).kernel, [CONN_FD]) == [1];
  }

  lemma Wakes()
    ensures Steps(Waits(Dispatching, 0, 0, [1]), Dispatch, Shared(Waiting(), LIVE))
  {
    ResumesWorker(ACCEPTOR);
    var batch: seq<ChanId> := [1];
    assert batch[1..] == [];
  }

  /** Deregister in the worker, given that the first entry is under its deadline. */
  lemma CancelSteps(s: State, s': State, fd: int, c: ChanId, t: TimerId, view: View<ChanId>)
    requires Running(s.env.stack) == WORKER && At(s.pc, WORKER) == Parked(fd, c, t) && s.routineNum == 1
    requires c < |s.chans| && Remove(s.epoll, fd, c, s.chans[c].index) == Ok(view)
    requires t < |s.timers| && !s.timers[t].freed && s.heap != [] && s.heap[0].when == s.timers[t].when
    requires s' == s.(epoll := view, chans := s.chans[c := s.chans[c].(index := New)], heap := Erase(s.heap, 0),
                      cancelled := s.cancelled + [s.heap[0].timer], pc := s.pc[WORKER := Echoing(fd, c)])
    ensures Steps(s, Deregister(0), s')
  {
  }

  lemma CancelsOwnTimer()
    ensures Steps(Shared(Waiting(), LIVE), Deregister(0), Shared(Echoing(CONN_FD, 1), LEFT))
  {
    Unregisters();
    var s, s' := Shared(Waiting(), LIVE), Shared(Echoing(CONN_FD, 1), LEFT);
    assert Erase(BothTimed(0), 0) == [Entry(TIMEOUT, 1)];
    assert s.pc[WORKER := Echoing(CONN_FD, 1)] == s'.pc && s.cancelled + [0] == s'.cancelled;
    CancelSteps(s, s', CONN_FD, 1, 0, ViewOf(false, true));
  }

  lemma Keeps()
    ensures Steps(Shared(Echoing(CONN_FD, 1), LEFT), Echo(1, 1, false), Shared(Registering(CONN_FD), DEAD))
  {
    Destroys();
    var s, s' := Shared(Echoing(CONN_FD, 1), LEFT), Shared(Registering(CONN_FD), DEAD);
    assert s.pc[WORKER := Registering(CONN_FD)] == s'.pc;
    assert Exec(s, Echo(1, 1, false)).value == s';
  }

  lemma RegistersConnection()
    ensures Update(ViewOf(false, true), CONN_FD, 3, New, READ_WRITE) == Ok((ViewAgain(true), Added))
  {
    var u := Update(ViewOf(false, true), CONN_FD, 3, New, READ_WRITE).value.0;
    assert u.channels == ViewAgain(true).channels && u.kernel == ViewAgain(true).kernel;
  }

  lemma BehindAcceptor()
    ensures Insert([Entry(TIMEOUT, 1)], Entry(TIMEOUT, 2)) == [Entry(TIMEOUT, 1), Entry(TIMEOUT, 2)]
  {
    var h: seq<Entry<TimerId>> := [Entry(TIMEOUT, 1)];
    assert LowerBound(h, TIMEOUT + 1) == 1 && h[..1] == h && h[1..] == [];
  }

  lemma RegistersAgain()
    ensures Steps(Shared(Registering(CONN_FD), DEAD), Register(0), RegisteredAgain())
  {
    RegistersConnection();
    BehindAcceptor();
    YieldsToMain();
    RegisterSteps(Shared(Registering(CONN_FD), DEAD), RegisteredAgain(), CONN_FD, 0, ViewAgain(true),
                  EnvOf([MAIN], MAIN));
  }

  /** Poll of one descriptor, given its Channel. */
  lemma PollSteps(s: State, s': State, fd: int, c: ChanId)
    requires At(s.pc, Running(s.env.stack)).Polling? && fd in s.epoll.kernel && s.epoll.kernel[fd].ptr == c
    requires fd == s.timerFd ==> Pending(s.armed, s.clock)
    requires s' == s.(batch := [c], overtaken := {}, pc := s.pc[MAIN := Dispatching])
    ensures Steps(s, Poll([fd]), s')
  {
    assert ActiveChannels(s.epoll.kernel, [fd]) == [c];
  }

  /** Dispatch of a Channel, given its routine. */
  lemma WakeSteps(s: State, s': State, c: ChanId, r: Rid, env: Env)
    requires At(s.pc, Running(s.env.stack)).Dispatching? && s.batch == [c] && c != TIMERFD_CHANNEL
    requires c < |s.chans| && s.chans[c].alive && s.chans[c].owner == r && Resume(s.env, r) == Ok(env)
    requires s' == s.(env := env, batch := [])
    ensures Steps(s, Dispatch, s')
  {
    assert s.batch[1..] == [];
  }

  lemma WakesAgain()
    ensures Steps(RegisteredAgain(), EndBatch, PollingAgain())
    ensures Steps(PollingAgain(), Poll([CONN_FD]), ReportedAgain())
    ensures Steps(ReportedAgain(), Dispatch, WokenAgain())
  {
    PollSteps(PollingAgain(), ReportedAgain(), CONN_FD, 3);
    ResumesWorker(MAIN);
    WakeSteps(ReportedAgain(), WokenAgain(), 3, WORKER, EnvOf([MAIN, WORKER], MAIN));
  }

  lemma UnregistersAgain()
    ensures Remove(ViewAgain(true), CONN_FD, 3, Added) == Ok(ViewAgain(false))
  {
    var v := Remove(ViewAgain(true), CONN_FD, 3, Added).value;
    assert v.channels == ViewAgain(false).channels && v.kernel == ViewAgain(false).kernel;
  }

  /** The first entry is the acceptor's. */
  lemma CancelsWrongTimer()
    ensures Steps(WokenAgain(), Deregister(0), Mistaken()) && CancelsAnother(WokenAgain(), Deregister(0))
  {
    UnregistersAgain();
    var s := WokenAgain();
    assert Erase(s.heap, 0) == [Entry(TIMEOUT, 2)] && s.cancelled + [1] == [0, 1];
    CancelSteps(s, Mistaken(), CONN_FD, 3, 2, ViewAgain(false));
  }

  lemma Idles()
    ensures Steps(Closed(), GoIdle, IdleOnce())
  {
    YieldsToMain();
    IdleSteps(Closed(), IdleOnce(), WORKER, EnvOf([MAIN], MAIN));
  }

  lemma Closes()
    ensures Steps(Mistaken(), Echo(0, 0, false), Closed())
  {
    var s := Mistaken();
    MistakenEchoes();
    CloseSteps(s, Closed(), WORKER, CONN_FD, 3, s.epoll.kernel);
  }

  lemma MistakenEchoes()
    ensures var s := Mistaken();
            && Running(s.env.stack) == WORKER && At(s.pc, WORKER) == Echoing(CONN_FD, 3) && CONN_FD in s.open
            && s.epoll.kernel - {CONN_FD} == s.epoll.kernel
  {
    assert ViewAgain(false).kernel - {CONN_FD} == ViewAgain(false).kernel;
  }

  lemma TimePasses()
    ensures Steps(IdleOnce(), EndBatch, PollingLate(0))
    ensures Steps(PollingLate(0), Tick(TIMEOUT + 1), PollingLate(TIMEOUT + 1))
  {
  }

  lemma ReportsTimerFd()
    ensures Steps(PollingLate(TIMEOUT + 1), Poll([TIMER_FD]), ReportedLate())
  {
    PollSteps(PollingLate(TIMEOUT + 1), ReportedLate(), TIMER_FD, TIMERFD_CHANNEL);
  }

  lemma Expires()
    ensures Steps(ReportedLate(), Dispatch, ExpiringLate())
  {
    var s := ReportedLate();
    assert s.batch[1..] == [] && s.heap[1..] == [] && s.heap[..1] == s.heap;
    assert LowerBound(s.heap, s.clock) == 1;
    EnterSteps(s, ExpiringLate(), 1);
  }

  lemma Fires()
    ensures Steps(ExpiringLate(), FireTimer, FiredLate())
  {
    ResumesWorker(MAIN);
    var s := ExpiringLate();
    assert s.fired + [2] == [2] && s.overtaken + {WORKER} == {WORKER};
    FireSteps(s, FiredLate(), Expiring([Entry(TIMEOUT, 2)], 0, TIMEOUT + 1), WORKER, EnvOf([MAIN, WORKER], MAIN));
  }

  lemma IdlesTwice()
    ensures Steps(FiredLate(), GoIdle, IdleTwice())
  {
    YieldsToMain();
    assert [WORKER] + [WORKER] == IdleTwice().idle;
    IdleSteps(FiredLate(), IdleTwice(), WORKER, EnvOf([MAIN], MAIN));
  }

  lemma WorkerWaitsAgain()
    ensures Possible(RegisteredAgain(), false)
  {
    Open(0, false);
    Reports();
    Extend(BothWait(0), Poll([CONN_FD]), Waits(Dispatching, 0, 0, [1]), false);
    Wakes();
    Extend(Waits(Dispatching, 0, 0, [1]), Dispatch, Shared(Waiting(), LIVE), false);
    CancelsOwnTimer();
    Extend(Shared(Waiting(), LIVE), Deregister(0), Shared(Echoing(CONN_FD, 1), LEFT), false);
    Keeps();
    Extend(Shared(Echoing(CONN_FD, 1), LEFT), Echo(1, 1, false), Shared(Registering(CONN_FD), DEAD), false);
    RegistersAgain();
    Extend(Shared(Registering(CONN_FD), DEAD), Register(0), RegisteredAgain(), false);
  }

  lemma WorkerIdles()
    ensures Possible(IdleOnce(), false)
  {
    WorkerWaitsAgain();
    WakesAgain();
    Extend(RegisteredAgain(), EndBatch, PollingAgain(), false);
    Extend(PollingAgain(), Poll([CONN_FD]), ReportedAgain(), false);
    Extend(ReportedAgain(), Dispatch, WokenAgain(), false);
    CancelsWrongTimer();
    Extend(WokenAgain(), Deregister(0), Mistaken(), false);
    Closes();
    Extend(Mistaken(), Echo(0, 0, false), Closed(), false);
    Idles();
    Extend(Closed(), GoIdle, IdleOnce(), false);
  }

  /** In some run a cancel erases the entry of another routine, and the worker ends up twice on
      g_readwrite. */
  lemma SharedDeadlineDuplicatesWorker()
    ensures exists s :: Possible(s, false) && s.idle == [WORKER, WORKER]
  {
    WorkerIdles();
    TimePasses();
    Extend(IdleOnce(), EndBatch, PollingLate(0), false);
    Extend(PollingLate(0), Tick(TIMEOUT + 1), PollingLate(TIMEOUT + 1), false);
    ReportsTimerFd();
    Extend(PollingLate(TIMEOUT + 1), Poll([TIMER_FD]), ReportedLate(), false);
    Expires();
    Extend(ReportedLate(), Dispatch, ExpiringLate(), false);
    Fires();
    Extend(ExpiringLate(), FireTimer, FiredLate(), false);
    IdlesTwice();
    Extend(FiredLate(), GoIdle, IdleTwice(), false);
  }

  // The timerfd ahead of a channel in one batch: only the worker's timer expires

  const NOW := TIMEOUT + 1

  /** In handleRead, with the worker's channel still to be dispatched. */
  function Overtaking(stack: seq<Rid>, done: nat, worker: Pc, chan: Channel, closed: bool, idle: seq<Rid>): State
    requires stack != []
  {
    var resumer := if done == 0 then ACCEPTOR else MAIN;
    After(Scene(stack, resumer, Expiring([Entry(TIMEOUT, 0)], done, NOW), worker, chan, closed),
          [Entry(2 + TIMEOUT, 1)], BothTimers(2), TimerFd(None, 2), NOW, [1], idle,
          if done == 0 then [] else [0], [], if done == 0 then {} else {WORKER})
  }

  /** handleRead has returned. */
  function Overtaken(): State {
    After(Scene([MAIN], MAIN, Dispatching, LoopTop, DEAD, true), [Entry(2 + TIMEOUT, 1)],
          [Timer(WORKER, TIMEOUT, true), Timer(ACCEPTOR, 2 + TIMEOUT, false)], TimerFd(Some(NOW + MIN_DELAY), NOW), NOW,
          [1], [WORKER], [0], [], {WORKER})
  }

  lemma ReportsBoth()
    ensures Steps(BothWait(2), Tick(NOW), Waits(Polling, 2, NOW, []))
    ensures Steps(Waits(Polling, 2, NOW, []), Poll([TIMER_FD, CONN_FD]), Waits(Dispatching, 2, NOW, [0, 1]))
  {
    assert ActiveChannels(ViewOf(true, true).kernel, [TIMER_FD, CONN_FD]) == [0, 1];
    assert SameParts(Exec(Waits(Polling, 2, NOW, []), Poll([TIMER_FD, CONN_FD])).value,
          Waits(Dispatching, 2, NOW, [0, 1]));
  }

  lemma Enters()
    ensures Steps(Waits(Dispatching, 2, NOW, [0, 1]), Dispatch, Overtaking([MAIN], 0, Waiting(), LIVE, false, []))
  {
    var s, s' := Waits(Dispatching, 2, NOW, [0, 1]), Overtaking([MAIN], 0, Waiting(), LIVE, false, []);
    assert s.batch[1..] == [1] && s.heap[1..] == [Entry(2 + TIMEOUT, 1)] && s.heap[..1] == [Entry(TIMEOUT, 0)];
    assert LowerBound(s.heap, s.clock) == 1;
    assert s.pc[MAIN := Expiring([Entry(TIMEOUT, 0)], 0, NOW)] == s'.pc;
    EnterSteps(s, s', 1);
  }

  /** FireTimer, given what the state before it says of the next expired timer. */
  lemma FireSteps(s: State, s': State, pc: Pc, owner: Rid, env: Env)
    requires Running(s.env.stack) == MAIN && At(s.pc, MAIN) == pc && pc.Expiring? && pc.done < |pc.all|
    requires TimerOf(s.timers, pc.all[pc.done].timer).owner == owner && !TimerOf(s.timers, pc.all[pc.done].timer).freed
    requires Resume(s.env, owner) == Ok(env)
    requires s' == s.(env := env, pc := s.pc[MAIN := pc.(done := pc.done + 1)],
                      fired := s.fired + [pc.all[pc.done].timer], overtaken := s.overtaken + {owner})
    ensures Steps(s, FireTimer, s')
  {
  }

  lemma Overtakes()
    ensures Steps(Overtaking([MAIN], 0, Waiting(), LIVE, false, []), FireTimer,
              Overtaking([MAIN, WORKER], 1, Waiting(), LIVE, false, []))
  {
    ResumesWorker(ACCEPTOR);
    var s, s' := Overtaking([MAIN], 0, Waiting(), LIVE, false, []),
        Overtaking([MAIN, WORKER], 1, Waiting(), LIVE, false, []);
    assert s.pc[MAIN := Expiring([Entry(TIMEOUT, 0)], 1, NOW)] == s'.pc && s.fired + [0] == s'.fired
        && s.overtaken + {WORKER} == s'.overtaken;
    FireSteps(s, s', Expiring([Entry(TIMEOUT, 0)], 0, NOW), WORKER, s'.env);
  }

  lemma Leaves()
    ensures Steps(Overtaking([MAIN, WORKER], 1, Waiting(), LIVE, false, []), Deregister(0),
                  Overtaking([MAIN, WORKER], 1, Echoing(CONN_FD, 1), LEFT, false, []))
  {
    Unregisters();
    assert SameParts(Exec(Overtaking([MAIN, WORKER], 1, Waiting(), LIVE, false, []), Deregister(0)).value,
                     Overtaking([MAIN, WORKER], 1, Echoing(CONN_FD, 1), LEFT, false, []));
  }

  lemma ClosesOvertaken()
    ensures Steps(Overtaking([MAIN, WORKER], 1, Echoing(CONN_FD, 1), LEFT, false, []), Echo(0, 0, false),
                  Overtaking([MAIN, WORKER], 1, LoopTop, DEAD, true, []))
  {
    Destroys();
    var s, s' := Overtaking([MAIN, WORKER], 1, Echoing(CONN_FD, 1), LEFT, false, []),
        Overtaking([MAIN, WORKER], 1, LoopTop, DEAD, true, []);
    assert s.pc[WORKER := LoopTop] == s'.pc && s.open - {CONN_FD} == s'.open && s.conns - {CONN_FD} == s'.conns;
    CloseSteps(s, s', WORKER, CONN_FD, 1, ViewOf(false, true).kernel);
  }

  lemma IdlesOvertaken()
    ensures Steps(Overtaking([MAIN, WORKER], 1, LoopTop, DEAD, true, []), GoIdle,
                  Overtaking([MAIN], 1, LoopTop, DEAD, true, [WORKER]))
  {
    YieldsToMain();
    var s, s' := Overtaking([MAIN, WORKER], 1, LoopTop, DEAD, true, []),
        Overtaking([MAIN], 1, LoopTop, DEAD, true, [WORKER]);
    assert s.idle + [WORKER] == s'.idle;
    IdleSteps(s, s', WORKER, EnvOf([MAIN], MAIN));
  }

  lemma Finishes()
    ensures Steps(Overtaking([MAIN], 1, LoopTop, DEAD, true, [WORKER]), FinishTimers, Overtaken())
  {
    var s := Overtaking([MAIN], 1, LoopTop, DEAD, true, [WORKER]);
    var all: seq<Entry<TimerId>> := [Entry(TIMEOUT, 0)];
    assert InExpired(all, 0) by {
      assert all[0] in all;
    }
    assert SameParts(Exec(s, FinishTimers).value, Overtaken());
  }

  /** The worker has come back from addEpoll, resumed by its timer. */
  lemma WorkerLeaves()
    ensures Possible(Overtaking([MAIN, WORKER], 1, Echoing(CONN_FD, 1), LEFT, false, []), true)
  {
    Open(2, true);
    ReportsBoth();
    Extend(BothWait(2), Tick(NOW), Waits(Polling, 2, NOW, []), true);
    Extend(Waits(Polling, 2, NOW, []), Poll([TIMER_FD, CONN_FD]), Waits(Dispatching, 2, NOW, [0, 1]), true);
    Enters();
    Extend(Waits(Dispatching, 2, NOW, [0, 1]), Dispatch, Overtaking([MAIN], 0, Waiting(), LIVE, false, []), true);
    Overtakes();
    Extend(Overtaking([MAIN], 0, Waiting(), LIVE, false, []), FireTimer,
          Overtaking([MAIN, WORKER], 1, Waiting(), LIVE, false, []), true);
    Leaves();
    Extend(Overtaking([MAIN, WORKER], 1, Waiting(), LIVE, false, []), Deregister(0),
           Overtaking([MAIN, WORKER], 1, Echoing(CONN_FD, 1), LEFT, false, []), true);
  }

  /** A run in which every cancel erases its own entry reaches a state in which main dispatches a Channel
      that has left its scope. */
  lemma TimerFdFirstDangles()
    ensures exists s :: Reachable(s) && Enabled(s, Dispatch) && Exec(s, Dispatch) == Fault(DanglingChannel)
  {
    WorkerLeaves();
    ClosesOvertaken();
    IdlesOvertaken();
    Extend(Overtaking([MAIN, WORKER], 1, Echoing(CONN_FD, 1), LEFT, false, []), Echo(0, 0, false),
           Overtaking([MAIN, WORKER], 1, LoopTop, DEAD, true, []), true);
    Extend(Overtaking([MAIN, WORKER], 1, LoopTop, DEAD, true, []), GoIdle,
          Overtaking([MAIN], 1, LoopTop, DEAD, true, [WORKER]), true);
    Finishes();
    Extend(Overtaking([MAIN], 1, LoopTop, DEAD, true, [WORKER]), FinishTimers, Overtaken(), true);
    SafeIsReachable(Overtaken());
    DanglesNow();
  }

  lemma DanglesNow()
    ensures Enabled(Overtaken(), Dispatch) && Exec(Overtaken(), Dispatch) == Fault(DanglingChannel)
  {
  }

  // A pass of handleRead at the very microsecond of a deadline

  lemma ReportsAtDeadline()
    ensures Steps(BothWait(2), Tick(TIMEOUT), Waits(Polling, 2, TIMEOUT, []))
    ensures Steps(Waits(Polling, 2, TIMEOUT, []), Poll([TIMER_FD]), Waits(Dispatching, 2, TIMEOUT, [0]))
  {
    assert ActiveChannels(ViewOf(true, true).kernel, [TIMER_FD]) == [0];
    assert SameParts(Exec(Waits(Polling, 2, TIMEOUT, []), Poll([TIMER_FD])).value, Waits(Dispatching, 2, TIMEOUT, [0]));
  }

  lemma FailsNow()
    ensures Enabled(Waits(Dispatching, 2, TIMEOUT, [0]), Dispatch)
    ensures Exec(Waits(Dispatching, 2, TIMEOUT, [0]), Dispatch) == Fault(HeapAssertion)
  {
    assert LowerBound(Waits(Dispatching, 2, TIMEOUT, [0]).heap, TIMEOUT) == 0;
  }

  /** A run in which every cancel erases its own entry reaches the failing assertion of getExpired. */
  lemma DeadlineNowFailsAssertion()
    ensures exists s :: Reachable(s) && Enabled(s, Dispatch) && Exec(s, Dispatch) == Fault(HeapAssertion)
  {
    Open(2, true);
    ReportsAtDeadline();
    Extend(BothWait(2), Tick(TIMEOUT), Waits(Polling, 2, TIMEOUT, []), true);
    Extend(Waits(Polling, 2, TIMEOUT, []), Poll([TIMER_FD]), Waits(Dispatching, 2, TIMEOUT, [0]), true);
    SafeIsReachable(Waits(Dispatching, 2, TIMEOUT, [0]));
    FailsNow();
  }
}
