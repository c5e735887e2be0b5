/** Every step of the server keeps the invariant. */
module ReactorSteps {
  import opened Wrappers
  import opened Routines
  import opened Timers
  import opened EpollSpec
  import opened Reactor
  import opened ReactorInvariant

  // Reading the shape of the call stack

  /** The program counter of the running routine tells which routine it is. */
  lemma WhoRuns(n: nat, env: Env, pc: Pcs)
    requires Shape(n, env, pc)
    ensures env.stack != [] && Running(env.stack) == Top(env) && Running(env.stack) in env.stack
    ensures MainPc(At(pc, Running(env.stack))) <==> env.stack == [MAIN]
    ensures MainPc(At(pc, Running(env.stack))) <==> Running(env.stack) == MAIN
    ensures !MainPc(At(pc, Running(env.stack))) ==>
              |env.stack| >= 2 && 1 <= Running(env.stack) < Unborn(n, pc) && MainPc(At(pc, MAIN))
    ensures At(pc, Running(env.stack)).Accepting? ==> Running(env.stack) == Acceptor(n) && |env.stack| == 2
    ensures (At(pc, Running(env.stack)).LoopTop? || At(pc, Running(env.stack)).Registering?
              || At(pc, Running(env.stack)).Echoing?)
            ==> IsWorker(n, Running(env.stack))
    ensures At(pc, Running(env.stack)).Parked? ==>
              IsWorker(n, Running(env.stack)) || (Running(env.stack) == Acceptor(n) && |env.stack| == 2)
  {
    assert RoutineState(n, env.stack, pc, Running(env.stack));
    assert RoutineState(n, env.stack, pc, MAIN);
  }

  lemma SetPc(pc: Pcs, x: Rid, p: Pc)
    ensures forall r: Rid {:trigger At(pc[x := p], r)} :: At(pc[x := p], r) == if r == x then p else At(pc, r)
  {
  }

  /** The running routine goes on to `p`. */
  lemma ShapeStep(n: nat, env: Env, pc: Pcs, p: Pc)
    requires Shape(n, env, pc)
    requires var r := Running(env.stack);
             if r == MAIN then MainPc(p) && !p.Spawning? && !At(pc, MAIN).Spawning?
             else if IsWorker(n, r) then WorkerPc(p)
             else p.Parked? || p.Accepting?
    ensures Shape(n, env, pc[Running(env.stack) := p])
  {
    WhoRuns(n, env, pc);
    var r := Running(env.stack);
    SetPc(pc, r, p);
    var pc' := pc[r := p];
    forall x: Rid
      ensures RoutineState(n, env.stack, pc', x)
    {
      assert RoutineState(n, env.stack, pc, x);
    }
  }

  /** A routine that is inside addEpoll, or idle, may yield. */
  lemma ShapeYield(n: nat, env: Env, pc: Pcs)
    requires Shape(n, env, pc)
    requires At(pc, Running(env.stack)).Parked? || At(pc, Running(env.stack)).LoopTop?
    ensures Yield(env).Ok? && Yield(env).value.stack == env.stack[..|env.stack| - 1]
    ensures Shape(n, Yield(env).value, pc)
    ensures forall r: Rid :: r in Yield(env).value.stack <==> r in env.stack && r != Running(env.stack)
  {
    WhoRuns(n, env, pc);
    YieldDisciplined(env);
    var stack := Yield(env).value.stack;
    forall r: Rid
      ensures RoutineState(n, stack, pc, r)
    {
      assert RoutineState(n, env.stack, pc, r);
    }
  }

  /** Main may resume any suspended routine; the acceptor may resume a worker. */
  lemma ShapeResume(n: nat, env: Env, pc: Pcs, r: Rid)
    requires Shape(n, env, pc)
    requires 1 <= r < Unborn(n, pc) && r !in env.stack
    requires env.stack == [MAIN] || (At(pc, Running(env.stack)).Accepting? && IsWorker(n, r))
    ensures Resume(env, r).Ok? && Resume(env, r).value.stack == env.stack + [r]
    ensures Shape(n, Resume(env, r).value, pc)
    ensures forall x: Rid :: x in Resume(env, r).value.stack <==> x in env.stack || x == r
    ensures Running(Resume(env, r).value.stack) == r
  {
    WhoRuns(n, env, pc);
    ResumeDisciplined(env, r);
    var stack := Resume(env, r).value.stack;
    forall x: Rid
      ensures RoutineState(n, stack, pc, x)
    {
      assert RoutineState(n, env.stack, pc, x);
    }
  }

  // Steps that start with the clock, and those of readwrite_routine

  lemma TickKeeps(s: State, t: int)
    requires Inv(s) && s.clock <= t
    ensures Inv(s.(clock := t))
  {
  }

  /** `after` is `before` without its top `r`. */
  ghost predicate Popped(before: seq<Rid>, after: seq<Rid>, r: Rid) {
    forall x: Rid :: x in after <==> x in before && x != r
  }

  lemma GoIdleStack(n: nat, stack: seq<Rid>, stack': seq<Rid>, pc: Pcs, idle: seq<Rid>, taskFd: map<Rid, int>, w: Rid)
    requires IdleStack(n, stack, pc, idle, taskFd)
    requires Popped(stack, stack', w) && w in stack && w == Running(stack) && IsWorker(n, w) && At(pc, w).LoopTop?
    requires TaskFd(taskFd, w) == -1
    ensures IdleStack(n, stack', pc, idle + [w], taskFd)
  {
    assert !Idle(n, stack, pc, w);
    forall x: Rid
      ensures x in idle + [w] <==> Idle(n, stack', pc, x)
    {
      assert x in idle <==> Idle(n, stack, pc, x);
    }
  }

  lemma TimersPop(stack: seq<Rid>, stack': seq<Rid>, pc: Pcs, heap: seq<Entry<TimerId>>, timers: seq<Timer>,
          clock: int, r: Rid)
    requires TimerQueue(stack, pc, heap, timers) && Popped(stack, stack', r) && Plain(At(pc, r))
    ensures TimerQueue(stack', pc, heap, timers)
    ensures At(pc, MAIN).Expiring? && ExpiredPass(stack, pc, heap, timers, clock) ==>
            ExpiredPass(stack', pc, heap, timers, clock)
  {
    forall x: Rid | 1 <= x && At(pc, x).Parked?
      ensures TimerOfParked(stack', pc, heap, timers, x)
    {
      assert TimerOfParked(stack, pc, heap, timers, x);
    }
    if At(pc, MAIN).Expiring? && ExpiredPass(stack, pc, heap, timers, clock) {
      var Expiring(all, done, _) := At(pc, MAIN);
      assert forall j :: done <= j < |all| ==> ToRun(stack, pc, timers, all[j]);
      assert forall j :: 0 <= j < done ==> Ran(stack, pc, timers, all[j]);
    }
  }

  lemma BatchPop(stack: seq<Rid>, stack': seq<Rid>, pc: Pcs, chans: seq<Channel>, batch: seq<ChanId>,
          overtaken: set<Rid>, r: Rid)
    requires Batch(stack, pc, chans, batch, overtaken) && Popped(stack, stack', r) && r in stack
    requires forall c: ChanId :: 0 < c < |chans| && chans[c].alive ==> InScope(pc, chans, c)
    requires Plain(At(pc, r))
    ensures Batch(stack', pc, chans, batch, overtaken)
  {
    forall c | c in batch
      ensures BatchEntry(stack', pc, chans, overtaken, c)
    {
      assert BatchEntry(stack, pc, chans, overtaken, c);
    }
  }

  lemma GoIdleKeeps(s: State)
    requires Inv(s) && Enabled(s, GoIdle)
    ensures Exec(s, GoIdle).Ok? && Inv(Exec(s, GoIdle).value)
  {
    WhoRuns(s.routineNum, s.env, s.pc);
    ShapeYield(s.routineNum, s.env, s.pc);
    var w := Running(s.env.stack);
    var s' := Exec(s, GoIdle).value;
    GoIdleStack(s.routineNum, s.env.stack, s'.env.stack, s.pc, s.idle, s.taskFd, w);
    TimersPop(s.env.stack, s'.env.stack, s.pc, s.heap, s.timers, s.clock, w);
    BatchPop(s.env.stack, s'.env.stack, s.pc, s.chans, s.batch, s.overtaken, w);
    assert !IsWorker(s.routineNum, Running(s'.env.stack));
  }

  /** Outside addEpoll and the scope of a Channel. */
  predicate Plain(p: Pc) {
    !p.Parked? && !p.Echoing?
  }

  lemma RegistryPlain(pc: Pcs, view: View<ChanId>, chans: seq<Channel>, timerFd: int, x: Rid, p: Pc)
    requires Registry(pc, view, chans, timerFd) && Plain(At(pc, x)) && Plain(p)
    ensures Registry(pc[x := p], view, chans, timerFd)
  {
    SetPc(pc, x, p);
    assert forall c: ChanId :: 0 < c < |chans| && chans[c].alive ==> InScope(pc, chans, c);
  }

  lemma TimersPlain(stack: seq<Rid>, pc: Pcs, heap: seq<Entry<TimerId>>, timers: seq<Timer>, x: Rid, p: Pc)
    requires TimerQueue(stack, pc, heap, timers) && Plain(At(pc, x)) && Plain(p)
    requires x == MAIN ==> Todo(p) == Todo(At(pc, MAIN))
    ensures TimerQueue(stack, pc[x := p], heap, timers)
  {
    SetPc(pc, x, p);
    var pc' := pc[x := p];
    forall e | e in heap
      ensures OwnedTimer(pc', timers, e)
    {
      assert OwnedTimer(pc, timers, e);
    }
    forall r: Rid | 1 <= r && At(pc', r).Parked?
      ensures TimerOfParked(stack, pc', heap, timers, r)
    {
      assert At(pc, r).Parked? && TimerOfParked(stack, pc, heap, timers, r);
    }
  }

  lemma PassPlain(stack: seq<Rid>, pc: Pcs, heap: seq<Entry<TimerId>>, timers: seq<Timer>, clock: int, x: Rid, p: Pc)
    requires At(pc, MAIN).Expiring? && ExpiredPass(stack, pc, heap, timers, clock)
    requires x != MAIN && Plain(At(pc, x)) && Plain(p)
    ensures ExpiredPass(stack, pc[x := p], heap, timers, clock)
  {
    SetPc(pc, x, p);
    var pc' := pc[x := p];
    var Expiring(all, done, _) := At(pc, MAIN);
    forall j | done <= j < |all|
      ensures ToRun(stack, pc', timers, all[j])
    {
      assert ToRun(stack, pc, timers, all[j]);
    }
    forall j | 0 <= j < done
      ensures Ran(stack, pc', timers, all[j])
    {
      assert Ran(stack, pc, timers, all[j]);
    }
  }

  lemma BatchPlain(stack: seq<Rid>, pc: Pcs, chans: seq<Channel>, batch: seq<ChanId>, overtaken: set<Rid>, x: Rid,
          p: Pc)
    requires Batch(stack, pc, chans, batch, overtaken)
    requires x != MAIN && Plain(At(pc, x)) && Plain(p)
    ensures Batch(stack, pc[x := p], chans, batch, overtaken)
  {
    SetPc(pc, x, p);
    var pc' := pc[x := p];
    forall c | c in batch
      ensures BatchEntry(stack, pc', chans, overtaken, c)
    {
      assert BatchEntry(stack, pc, chans, overtaken, c);
    }
  }

  lemma TakeTaskKeeps(s: State)
    requires Inv(s) && Enabled(s, TakeTask)
    ensures Exec(s, TakeTask).Ok? && Inv(Exec(s, TakeTask).value)
  {
    WhoRuns(s.routineNum, s.env, s.pc);
    var w := Running(s.env.stack);
    var fd := TaskFd(s.taskFd, w);
    ShapeStep(s.routineNum, s.env, s.pc, Registering(fd));
    RegistryPlain(s.pc, s.epoll, s.chans, s.timerFd, w, Registering(fd));
    TimersPlain(s.env.stack, s.pc, s.heap, s.timers, w, Registering(fd));
    if At(s.pc, MAIN).Expiring? {
      PassPlain(s.env.stack, s.pc, s.heap, s.timers, s.clock, w, Registering(fd));
    }
    BatchPlain(s.env.stack, s.pc, s.chans, s.batch, s.overtaken, w, Registering(fd));
    TakeTaskConnections(s.routineNum, s.env.stack, s.pc, s.idle, s.taskFd, s.conns);
    SetPc(s.pc, w, Registering(fd));
  }

  lemma TakeTaskConnections(n: nat, stack: seq<Rid>, pc: Pcs, idle: seq<Rid>, taskFd: map<Rid, int>,
          conns: map<int, Rid>)
    requires IdleStack(n, stack, pc, idle, taskFd) && Connections(n, pc, taskFd, conns)
    requires var w := Running(stack); IsWorker(n, w) && w in stack && At(pc, w).LoopTop? && TaskFd(taskFd, w) != -1
    ensures var w := Running(stack);
            var pc', taskFd' := pc[w := Registering(TaskFd(taskFd, w))], taskFd[w := -1];
            IdleStack(n, stack, pc', idle, taskFd') && Connections(n, pc', taskFd', conns)
  {
    var w := Running(stack);
    var pc', taskFd' := pc[w := Registering(TaskFd(taskFd, w))], taskFd[w := -1];
    SetPc(pc, w, Registering(TaskFd(taskFd, w)));
    forall x: Rid
      ensures x in idle <==> Idle(n, stack, pc', x)
    {
      assert x in idle <==> Idle(n, stack, pc, x);
    }
    forall x: Rid | IsWorker(n, x)
      ensures Held(pc', taskFd', x) == Held(pc, taskFd, x)
    {
    }
  }

  // addEpoll up to its Yield

  /** The descriptor that the running routine is about to register is not in channels_. */
  lemma NotRegisteredYet(s: State, fd: int)
    requires Inv(s)
    requires var p := At(s.pc, Running(s.env.stack));
             if p.Registering? then fd == p.fd else p.Accepting? && fd == s.listenFd
    ensures fd !in s.epoll.channels && fd != s.timerFd
  {
    WhoRuns(s.routineNum, s.env, s.pc);
    var r := Running(s.env.stack);
    assert r != Acceptor(s.routineNum) ==> Held(s.pc, s.taskFd, r) == fd && fd in s.conns;
    assert fd != s.timerFd;
    assert fd in s.epoll.channels ==>
      ParkedOn(s.pc, s.chans, fd, s.epoll.channels[fd])
          && RoutineState(s.routineNum, s.env.stack, s.pc, s.chans[s.epoll.channels[fd]].owner);
    assert fd in s.epoll.channels ==>
      var owner := s.chans[s.epoll.channels[fd]].owner;
      IsWorker(s.routineNum, owner) ==> Held(s.pc, s.taskFd, owner) == fd;
  }

  lemma ParkRegistry(pc: Pcs, view: View<ChanId>, chans: seq<Channel>, timerFd: int, r: Rid, fd: int, t: TimerId)
    requires Registry(pc, view, chans, timerFd) && 1 <= r && Plain(At(pc, r))
    requires fd !in view.channels && fd != timerFd
    ensures var u, chan := Update(view, fd, |chans|, New, READ_WRITE), Channel(fd, READ_WRITE, Added, r, true);
            && u.Ok? && u.value.1 == Added
            && Registry(pc[r := Parked(fd, |chans|, t)], u.value.0, chans + [chan], timerFd)
  {
    var c := |chans|;
    var view' := Update(view, fd, c, New, READ_WRITE).value.0;
    var pc', chans' := pc[r := Parked(fd, c, t)], chans + [Channel(fd, READ_WRITE, Added, r, true)];
    SetPc(pc, r, Parked(fd, c, t));
    forall x: Rid | 1 <= x && At(pc', x).Parked?
      ensures Registered(pc', view', chans', x)
    {
      assert x != r ==> Registered(pc, view, chans, x);
    }
    forall x: Rid | 1 <= x && At(pc', x).Echoing?
      ensures Deregistered(pc', chans', x)
    {
      assert Deregistered(pc, chans, x);
    }
    forall f | f in view'.channels && f != timerFd
      ensures ParkedOn(pc', chans', f, view'.channels[f])
    {
      assert f != fd ==> ParkedOn(pc, chans, f, view.channels[f]);
    }
    forall k: ChanId | 0 < k < |chans'| && chans'[k].alive
      ensures InScope(pc', chans', k)
    {
      assert k != c ==> InScope(pc, chans, k);
    }
  }

  /** Only the top of the call stack can be inside addEpoll and running. */
  ghost predicate OnlyTopParked(stack: seq<Rid>, pc: Pcs, top: Rid) {
    forall x: Rid :: x in stack && At(pc, x).Parked? ==> x == top
  }

  lemma ParkTimer(stack: seq<Rid>, stack': seq<Rid>, pc: Pcs, heap: seq<Entry<TimerId>>, timers: seq<Timer>, r: Rid,
          p: Pc, when: int, x: Rid)
    requires TimerQueue(stack, pc, heap, timers) && Popped(stack, stack', r) && 1 <= r && p.Parked?
             && p.timer == |timers|
    requires OnlyTopParked(stack, pc, r)
    requires At(pc[r := p], x).Parked? && 1 <= x
    ensures TimerOfParked(stack', pc[r := p], Insert(heap, Entry(when, |timers|)), timers + [Timer(r, when, false)], x)
  {
    var e: Entry<TimerId> := Entry(when, |timers|);
    var pc', timers' := pc[r := p], timers + [Timer(r, when, false)];
    SetPc(pc, r, p);
    InsertKeeps(heap, e);
    if x != r {
      assert TimerOfParked(stack, pc, heap, timers, x);
      assert EntryOf(pc', timers', x) == EntryOf(pc, timers, x);
    } else {
      assert EntryOf(pc', timers', x) == e;
    }
  }

  lemma ParkTimers(stack: seq<Rid>, stack': seq<Rid>, pc: Pcs, heap: seq<Entry<TimerId>>, timers: seq<Timer>, r: Rid,
          p: Pc, when: int)
    requires TimerQueue(stack, pc, heap, timers) && Popped(stack, stack', r) && 1 <= r && p.Parked?
             && p.timer == |timers|
    requires OnlyTopParked(stack, pc, r) && Plain(At(pc, r)) && 0 < when
    ensures TimerQueue(stack', pc[r := p], Insert(heap, Entry(when, |timers|)), timers + [Timer(r, when, false)])
  {
    var e: Entry<TimerId> := Entry(when, |timers|);
    var pc', heap', timers' := pc[r := p], Insert(heap, e), timers + [Timer(r, when, false)];
    SetPc(pc, r, p);
    InsertKeeps(heap, e);
    assert forall x :: x in heap ==> OwnedTimer(pc, timers, x);
    InsertNoRepeats(heap, e);
    forall x | x in heap'
      ensures OwnedTimer(pc', timers', x)
    {
      if x != e {
        assert OwnedTimer(pc, timers, x);
      }
    }
    forall x: Rid | 1 <= x && At(pc', x).Parked?
      ensures TimerOfParked(stack', pc', heap', timers', x)
    {
      ParkTimer(stack, stack', pc, heap, timers, r, p, when, x);
    }
  }

  lemma ParkPass(stack: seq<Rid>, stack': seq<Rid>, pc: Pcs, heap: seq<Entry<TimerId>>, timers: seq<Timer>,
          clock: int, r: Rid, p: Pc, when: int, later: int)
    requires At(pc, MAIN).Expiring? && ExpiredPass(stack, pc, heap, timers, clock)
    requires Popped(stack, stack', r) && 1 <= r && p.Parked? && p.timer == |timers| && Plain(At(pc, r))
    requires Sorted(heap) && clock < when && clock <= later
    ensures var heap', timers' := Insert(heap, Entry(when, |timers|)), timers + [Timer(r, when, false)];
            ExpiredPass(stack', pc[r := p], heap', timers', later)
  {
    var pc', timers' := pc[r := p], timers + [Timer(r, when, false)];
    SetPc(pc, r, p);
    InsertKeeps(heap, Entry(when, |timers|));
    var Expiring(all, done, _) := At(pc, MAIN);
    forall j | done <= j < |all|
      ensures ToRun(stack', pc', timers', all[j])
    {
      assert ToRun(stack, pc, timers, all[j]);
    }
    forall j | 0 <= j < done
      ensures Ran(stack', pc', timers', all[j])
    {
      assert all[j] in all;
      assert Ran(stack, pc, timers, all[j]);
    }
  }

  lemma ParkBatch(stack: seq<Rid>, stack': seq<Rid>, pc: Pcs, chans: seq<Channel>, batch: seq<ChanId>,
          overtaken: set<Rid>, r: Rid, p: Pc, chan: Channel)
    requires Batch(stack, pc, chans, batch, overtaken) && Popped(stack, stack', r) && r in stack && 1 <= r
    requires forall c: ChanId :: 0 < c < |chans| && chans[c].alive ==> InScope(pc, chans, c)
    requires Plain(At(pc, r)) && p.Parked?
    ensures Batch(stack', pc[r := p], chans + [chan], batch, overtaken)
  {
    SetPc(pc, r, p);
    var pc' := pc[r := p];
    forall c | c in batch
      ensures BatchEntry(stack', pc', chans + [chan], overtaken, c)
    {
      assert BatchEntry(stack, pc, chans, overtaken, c);
    }
  }

  lemma ParkStack(n: nat, env: Env, pc: Pcs, r: Rid, p: Pc)
    requires Shape(n, env, pc) && r == Running(env.stack) && p.Parked?
             && (At(pc, r).Registering? || At(pc, r).Accepting?)
    ensures Yield(env).Ok? && Shape(n, Yield(env).value, pc[r := p]) && Popped(env.stack, Yield(env).value.stack, r)
    ensures Unborn(n, pc[r := p]) == Unborn(n, pc) && OnlyTopParked(env.stack, pc, r)
    ensures var r' := Running(Yield(env).value.stack); r' == MAIN || At(pc, r').Accepting?
  {
    WhoRuns(n, env, pc);
    ShapeStep(n, env, pc, p);
    SetPc(pc, r, p);
    ShapeYield(n, env, pc[r := p]);
    assert RoutineState(n, env.stack, pc, MAIN);
    assert |env.stack| == 3 ==> At(pc, env.stack[1]).Accepting?;
  }

  lemma ParkIdle(n: nat, stack: seq<Rid>, stack': seq<Rid>, pc: Pcs, idle: seq<Rid>, taskFd: map<Rid, int>,
          conns: map<int, Rid>, r: Rid, p: Pc)
    requires IdleStack(n, stack, pc, idle, taskFd) && Connections(n, pc, taskFd, conns)
    requires r in stack && r == Running(stack) && Popped(stack, stack', r) && p.Parked?
    requires if IsWorker(n, r) then At(pc, r).Registering? && At(pc, r).fd == p.fd else At(pc, r).Accepting?
    ensures IdleStack(n, stack', pc[r := p], idle, taskFd) && Connections(n, pc[r := p], taskFd, conns)
  {
    var pc' := pc[r := p];
    SetPc(pc, r, p);
    forall x: Rid
      ensures x in idle <==> Idle(n, stack', pc', x)
    {
      assert x in idle <==> Idle(n, stack, pc, x);
    }
    forall x: Rid | IsWorker(n, x)
      ensures Held(pc', taskFd, x) == Held(pc, taskFd, x)
    {
    }
  }

  /** Park on the components. */
  lemma ParkResult(s: State, r: Rid, fd: int, later: int, view: View<ChanId>)
    requires Update(s.epoll, fd, |s.chans|, New, READ_WRITE) == Ok((view, Added)) && Yield(s.env).Ok?
    ensures var c, t, when := |s.chans|, |s.timers|, s.clock + TIMEOUT;
            Park(s, r, fd, later) ==
            Ok(s.(epoll := view, chans := s.chans + [Channel(fd, READ_WRITE, Added, r, true)],
                  timers := s.timers + [Timer(r, when, false)], heap := Insert(s.heap, Entry(when, t)),
                  armed := if EarliestChanges(s.heap, when) then Arm(later, when) else s.armed,
                  clock := later, pc := s.pc[r := Parked(fd, c, t)], env := Yield(s.env).value))
  {
  }

  /** The running routine parks with a descriptor that is not registered: the scheduler's part. */
  lemma ParkTasks(s: State, r: Rid, fd: int, p: Pc)
    requires Inv(s) && r == Running(s.env.stack) && p.Parked? && p.fd == fd
    requires if At(s.pc, r).Registering? then fd == At(s.pc, r).fd else At(s.pc, r).Accepting? && fd == s.listenFd
    ensures 1 <= r && Plain(At(s.pc, r)) && Yield(s.env).Ok?
    ensures var env', pc' := Yield(s.env).value, s.pc[r := p];
            && Shape(s.routineNum, env', pc')
            && IdleStack(s.routineNum, env'.stack, pc', s.idle, s.taskFd)
            && Connections(s.routineNum, pc', s.taskFd, s.conns)
            && AcceptorListens(s.routineNum, pc', s.listenFd)
            && InLimbo(s.routineNum, pc', s.taskFd, Running(env'.stack)) == 0
            && Workers(s.routineNum, pc') == Workers(s.routineNum, s.pc)
  {
    WhoRuns(s.routineNum, s.env, s.pc);
    ParkStack(s.routineNum, s.env, s.pc, r, p);
    ParkIdle(s.routineNum, s.env.stack, Yield(s.env).value.stack, s.pc, s.idle, s.taskFd, s.conns, r, p);
    SetPc(s.pc, r, p);
  }

  lemma ParkSchedule(s: State, r: Rid, fd: int, later: int)
    requires Inv(s) && r == Running(s.env.stack) && s.clock <= later
    requires if At(s.pc, r).Registering? then fd == At(s.pc, r).fd else At(s.pc, r).Accepting? && fd == s.listenFd
    ensures Park(s, r, fd, later).Ok?
    ensures var s' := Park(s, r, fd, later).value;
            && Yield(s.env) == Ok(s'.env) && s'.pc == s.pc[r := Parked(fd, |s.chans|, |s.timers|)]
            && Shape(s.routineNum, s'.env, s'.pc)
            && IdleStack(s.routineNum, s'.env.stack, s'.pc, s.idle, s.taskFd)
            && Connections(s.routineNum, s'.pc, s.taskFd, s.conns)
            && AcceptorListens(s.routineNum, s'.pc, s'.listenFd)
            && Registry(s'.pc, s'.epoll, s'.chans, s.timerFd)
            && s'.chans == s.chans + [Channel(fd, READ_WRITE, Added, r, true)]
            && InLimbo(s.routineNum, s'.pc, s.taskFd, Running(s'.env.stack)) == 0
            && Workers(s.routineNum, s'.pc) == Workers(s.routineNum, s.pc)
  {
    NotRegisteredYet(s, fd);
    ParkTasks(s, r, fd, Parked(fd, |s.chans|, |s.timers|));
    ParkRegistry(s.pc, s.epoll, s.chans, s.timerFd, r, fd, |s.timers|);
    ParkResult(s, r, fd, later, Update(s.epoll, fd, |s.chans|, New, READ_WRITE).value.0);
  }

  lemma ParkClockwork(s: State, r: Rid, fd: int, later: int)
    requires Inv(s) && r == Running(s.env.stack) && s.clock <= later
    requires if At(s.pc, r).Registering? then fd == At(s.pc, r).fd else At(s.pc, r).Accepting? && fd == s.listenFd
    requires Park(s, r, fd, later).Ok?
    ensures var s' := Park(s, r, fd, later).value;
            && TimerQueue(s'.env.stack, s'.pc, s'.heap, s'.timers)
            && Batch(s'.env.stack, s'.pc, s'.chans, s'.batch, s'.overtaken)
            && (At(s'.pc, MAIN).Expiring? ==> ExpiredPass(s'.env.stack, s'.pc, s'.heap, s'.timers, s'.clock))
            && (!At(s'.pc, MAIN).Expiring? ==> Covers(s'.armed, s'.heap))
  {
    WhoRuns(s.routineNum, s.env, s.pc);
    var c, t, when := |s.chans|, |s.timers|, s.clock + TIMEOUT;
    var p, chan := Parked(fd, c, t), Channel(fd, READ_WRITE, Added, r, true);
    ParkStack(s.routineNum, s.env, s.pc, r, p);
    var s' := Park(s, r, fd, later).value;
    ParkTimers(s.env.stack, s'.env.stack, s.pc, s.heap, s.timers, r, p, when);
    ParkBatch(s.env.stack, s'.env.stack, s.pc, s.chans, s.batch, s.overtaken, r, p, chan);
    SetPc(s.pc, r, p);
    if At(s.pc, MAIN).Expiring? {
      ParkPass(s.env.stack, s'.env.stack, s.pc, s.heap, s.timers, s.clock, r, p, when, later);
    } else {
      CoversAfterInsert(s.armed, s.heap, Entry(when, t), later);
    }
  }

  lemma ParkKeeps(s: State, r: Rid, fd: int, later: int)
    requires Inv(s) && r == Running(s.env.stack) && s.clock <= later
    requires if At(s.pc, r).Registering? then fd == At(s.pc, r).fd else At(s.pc, r).Accepting? && fd == s.listenFd
    ensures Park(s, r, fd, later).Ok? && Inv(Park(s, r, fd, later).value)
  {
    WhoRuns(s.routineNum, s.env, s.pc);
    ParkSchedule(s, r, fd, later);
    ParkClockwork(s, r, fd, later);
  }

  // addEpoll from its Yield on

  /** Where the running routine goes when addEpoll returns: a worker goes on in the scope of its
      Channel; the acceptor leaves that scope. */
  ghost predicate Leaves(n: nat, r: Rid, parked: Pc, p: Pc)
    requires parked.Parked?
  {
    if r == Acceptor(n) then p == Accepting else p == Echoing(parked.fd, parked.chan)
  }

  lemma LeaveRegistry(n: nat, pc: Pcs, view: View<ChanId>, chans: seq<Channel>, timerFd: int, r: Rid, p: Pc)
    requires Registry(pc, view, chans, timerFd) && 1 <= r && At(pc, r).Parked? && Leaves(n, r, At(pc, r), p)
    ensures var Parked(fd, c, _) := At(pc, r);
            && c < |chans| && Remove(view, fd, c, chans[c].index).Ok?
            && Registry(pc[r := p], Remove(view, fd, c, chans[c].index).value,
                   chans[c := Channel(fd, READ_WRITE, New, r, p != Accepting)], timerFd)
  {
    var Parked(fd, c, _) := At(pc, r);
    assert Registered(pc, view, chans, r);
    var view' := Remove(view, fd, c, chans[c].index).value;
    var pc', chans' := pc[r := p], chans[c := Channel(fd, READ_WRITE, New, r, p != Accepting)];
    SetPc(pc, r, p);
    assert fd != timerFd;
    forall x: Rid | 1 <= x && At(pc', x).Parked?
      ensures Registered(pc', view', chans', x)
    {
      assert Registered(pc, view, chans, x);
    }
    forall x: Rid | 1 <= x && At(pc', x).Echoing?
      ensures Deregistered(pc', chans', x)
    {
      assert x != r ==> Deregistered(pc, chans, x);
    }
    forall f | f in view'.channels && f != timerFd
      ensures ParkedOn(pc', chans', f, view'.channels[f])
    {
      assert ParkedOn(pc, chans, f, view.channels[f]);
    }
    forall k: ChanId | 0 < k < |chans'| && chans'[k].alive
      ensures InScope(pc', chans', k)
    {
      assert InScope(pc, chans, k);
    }
  }

  /** The entry at `found`, if it is under the deadline of `e`, is `e` itself. */
  ghost predicate FindsOwn(heap: seq<Entry<TimerId>>, e: Entry<TimerId>, found: nat) {
    found < |heap| && heap[found].when == e.when ==> heap[found] == e
  }

  /** What cancel does to the queue when it erases nobody else's entry: it erases the routine's
      own, and nothing when that has been taken out to be run. */
  lemma CancelOwn(stack: seq<Rid>, pc: Pcs, heap: seq<Entry<TimerId>>, timers: seq<Timer>, r: Rid, found: nat)
    requires TimerQueue(stack, pc, heap, timers)
    requires 1 <= r && r in stack && At(pc, r).Parked? && FindsOwn(heap, EntryOf(pc, timers, r), found)
    requires MayFind(heap, TimerOf(timers, At(pc, r).timer).when, found)
    ensures var e := EntryOf(pc, timers, r);
            if e in heap then found < |heap| && heap[found] == e
            else Absent(heap, e) && !(found < |heap| && heap[found].when == e.when)
  {
    assert TimerOfParked(stack, pc, heap, timers, r);
  }

  /** The entry of the timer that the running routine cancels. */
  ghost function OwnEntry(s: State): Entry<TimerId>
    requires At(s.pc, Running(s.env.stack)).Parked?
  {
    EntryOf(s.pc, s.timers, Running(s.env.stack))
  }

  ghost function Cancelled(heap: seq<Entry<TimerId>>, when: int, found: nat): seq<Entry<TimerId>> {
    if found < |heap| && heap[found].when == when then Erase(heap, found) else heap
  }

  lemma CancelledKeeps(tf: TimerFd, heap: seq<Entry<TimerId>>, when: int, found: nat)
    requires Sorted(heap)
    ensures forall x :: x in Cancelled(heap, when, found) ==> x in heap
    ensures Covers(tf, heap) ==> Covers(tf, Cancelled(heap, when, found))
  {
    if found < |heap| {
      EraseKeeps(heap, found);
    }
  }

  lemma LeaveTimers(stack: seq<Rid>, pc: Pcs, heap: seq<Entry<TimerId>>, timers: seq<Timer>, r: Rid, found: nat, p: Pc)
    requires TimerQueue(stack, pc, heap, timers) && OnlyTopParked(stack, pc, r)
    requires 1 <= r && r in stack && At(pc, r).Parked? && !p.Parked? && FindsOwn(heap, EntryOf(pc, timers, r), found)
    requires MayFind(heap, TimerOf(timers, At(pc, r).timer).when, found)
    ensures TimerQueue(stack, pc[r := p], Cancelled(heap, EntryOf(pc, timers, r).when, found), timers)
  {
    var e := EntryOf(pc, timers, r);
    var pc', heap' := pc[r := p], Cancelled(heap, e.when, found);
    SetPc(pc, r, p);
    CancelOwn(stack, pc, heap, timers, r, found);
    if e in heap {
      EraseKeeps(heap, found);
    }
    assert e !in heap' && (forall x :: x in heap' ==> x in heap) && (forall x :: x in heap && x != e ==> x in heap');
    forall x | x in heap'
      ensures OwnedTimer(pc', timers, x)
    {
      assert OwnedTimer(pc, timers, x);
      assert timers[x.timer].owner == r ==> x == e;
    }
    forall x: Rid | 1 <= x && At(pc', x).Parked?
      ensures TimerOfParked(stack, pc', heap', timers, x)
    {
      LeaveTimer(stack, pc, heap, heap', timers, r, p, x);
    }
  }

  lemma LeaveTimer(stack: seq<Rid>, pc: Pcs, heap: seq<Entry<TimerId>>, heap': seq<Entry<TimerId>>,
          timers: seq<Timer>, r: Rid, p: Pc, x: Rid)
    requires TimerQueue(stack, pc, heap, timers) && OnlyTopParked(stack, pc, r)
    requires 1 <= r && At(pc, r).Parked? && !p.Parked? && 1 <= x && At(pc[r := p], x).Parked?
    requires forall y :: y in heap && y != EntryOf(pc, timers, r) ==> y in heap'
    ensures TimerOfParked(stack, pc[r := p], heap', timers, x)
  {
    SetPc(pc, r, p);
    assert TimerOfParked(stack, pc, heap, timers, x) && TimerOfParked(stack, pc, heap, timers, r);
    assert EntryOf(pc[r := p], timers, x) == EntryOf(pc, timers, x) != EntryOf(pc, timers, r);
  }

  lemma LeavePass(stack: seq<Rid>, pc: Pcs, heap: seq<Entry<TimerId>>, heap': seq<Entry<TimerId>>, timers: seq<Timer>,
          clock: int, r: Rid, p: Pc)
    requires At(pc, MAIN).Expiring? && ExpiredPass(stack, pc, heap, timers, clock)
    requires 1 <= r && r in stack && !p.Parked? && forall x :: x in heap' ==> x in heap
    ensures ExpiredPass(stack, pc[r := p], heap', timers, clock)
  {
    var pc' := pc[r := p];
    SetPc(pc, r, p);
    var Expiring(all, done, _) := At(pc, MAIN);
    forall j | done <= j < |all|
      ensures ToRun(stack, pc', timers, all[j])
    {
      assert ToRun(stack, pc, timers, all[j]);
    }
    forall j | 0 <= j < done
      ensures Ran(stack, pc', timers, all[j])
    {
      assert Ran(stack, pc, timers, all[j]);
    }
  }

  lemma LeaveBatch(stack: seq<Rid>, pc: Pcs, chans: seq<Channel>, batch: seq<ChanId>, overtaken: set<Rid>, r: Rid,
          c: ChanId, x: Channel, p: Pc)
    requires Batch(stack, pc, chans, batch, overtaken)
    requires 1 <= r && r in stack && 0 < c < |chans| && chans[c].owner == r && x.owner == r
    ensures Batch(stack, pc[r := p], chans[c := x], batch, overtaken)
  {
    var pc', chans' := pc[r := p], chans[c := x];
    SetPc(pc, r, p);
    forall k | k in batch
      ensures BatchEntry(stack, pc', chans', overtaken, k)
    {
      assert BatchEntry(stack, pc, chans, overtaken, k);
    }
  }

  lemma LeaveIdle(n: nat, stack: seq<Rid>, pc: Pcs, idle: seq<Rid>, taskFd: map<Rid, int>, conns: map<int, Rid>,
          r: Rid, p: Pc)
    requires IdleStack(n, stack, pc, idle, taskFd) && Connections(n, pc, taskFd, conns)
    requires r in stack && At(pc, r).Parked? && Leaves(n, r, At(pc, r), p)
    ensures IdleStack(n, stack, pc[r := p], idle, taskFd) && Connections(n, pc[r := p], taskFd, conns)
  {
    var pc' := pc[r := p];
    SetPc(pc, r, p);
    forall x: Rid
      ensures x in idle <==> Idle(n, stack, pc', x)
    {
      assert x in idle <==> Idle(n, stack, pc, x);
    }
    forall x: Rid | IsWorker(n, x)
      ensures Held(pc', taskFd, x) == Held(pc, taskFd, x)
    {
    }
  }

  /** DoDeregister on the components. */
  lemma UnparkResult(s: State, r: Rid, pc: Pc, found: nat)
    requires pc.Parked? && pc.chan < |s.chans| && MayRemove(s.epoll, pc.fd, pc.chan, s.chans[pc.chan].index)
    requires !TimerOf(s.timers, pc.timer).freed
    ensures DoDeregister(s, r, pc, found).Ok?
    ensures var s', acceptor := DoDeregister(s, r, pc, found).value, r == Acceptor(s.routineNum);
            var chan := s.chans[pc.chan].(index := New, alive := !acceptor && s.chans[pc.chan].alive);
            && s' == s.(pc := s.pc[r := if acceptor then Accepting else Echoing(pc.fd, pc.chan)],
                        chans := s.chans[pc.chan := chan],
                        heap := Cancelled(s.heap, TimerOf(s.timers, pc.timer).when, found),
                        epoll := s'.epoll, cancelled := s'.cancelled)
            && Remove(s.epoll, pc.fd, pc.chan, s.chans[pc.chan].index) == Ok(s'.epoll)
  {
  }

  /** The routine that runs again in addEpoll: its Channel is registered, and its Timer usable. */
  lemma ParkedRuns(s: State, r: Rid)
    requires Inv(s) && r == Running(s.env.stack) && At(s.pc, r).Parked?
    ensures 1 <= r && r in s.env.stack && OnlyTopParked(s.env.stack, s.pc, r)
    ensures var Parked(fd, c, t) := At(s.pc, r);
            && 0 < c < |s.chans| && s.chans[c] == Channel(fd, READ_WRITE, Added, r, true)
            && MayRemove(s.epoll, fd, c, Added) && !TimerOf(s.timers, t).freed
  {
    WhoRuns(s.routineNum, s.env, s.pc);
    assert Registered(s.pc, s.epoll, s.chans, r);
    assert TimerOfParked(s.env.stack, s.pc, s.heap, s.timers, r);
    assert |s.env.stack| == 3 ==> At(s.pc, s.env.stack[1]).Accepting?;
  }

  /** addEpoll's second half fails no assertion, and erases the routine's own timer. */
  lemma DeregisterResult(s: State, found: nat)
    requires Inv(s) && Enabled(s, Deregister(found)) && FindsOwn(s.heap, OwnEntry(s), found)
    ensures Exec(s, Deregister(found)).Ok?
    ensures var s', r := Exec(s, Deregister(found)).value, Running(s.env.stack);
            var Parked(fd, c, t) := At(s.pc, r);
            var p := if r == Acceptor(s.routineNum) then Accepting else Echoing(fd, c);
            && 1 <= r && r in s.env.stack && OnlyTopParked(s.env.stack, s.pc, r)
            && Leaves(s.routineNum, r, At(s.pc, r), p)
            && s'.env == s.env && s'.pc == s.pc[r := p] && s'.timers == s.timers
            && 0 < c < |s.chans| && s.chans[c].owner == r
            && s'.chans == s.chans[c := Channel(fd, READ_WRITE, New, r, p != Accepting)]
            && Remove(s.epoll, fd, c, s.chans[c].index) == Ok(s'.epoll)
            && s'.heap == Cancelled(s.heap, EntryOf(s.pc, s.timers, r).when, found)
            && s' == s.(pc := s'.pc, chans := s'.chans, epoll := s'.epoll, heap := s'.heap, cancelled := s'.cancelled)
  {
    var r := Running(s.env.stack);
    ParkedRuns(s, r);
    UnparkResult(s, r, At(s.pc, r), found);
  }

  lemma DeregisterSchedule(s: State, found: nat)
    requires Inv(s) && Enabled(s, Deregister(found)) && FindsOwn(s.heap, OwnEntry(s), found)
    requires Exec(s, Deregister(found)).Ok?
    ensures var s' := Exec(s, Deregister(found)).value;
            && Shape(s.routineNum, s'.env, s'.pc)
            && IdleStack(s.routineNum, s'.env.stack, s'.pc, s'.idle, s'.taskFd)
            && Connections(s.routineNum, s'.pc, s'.taskFd, s'.conns)
            && AcceptorListens(s.routineNum, s'.pc, s'.listenFd)
            && Registry(s'.pc, s'.epoll, s'.chans, s'.timerFd)
            && InLimbo(s.routineNum, s'.pc, s'.taskFd, Running(s'.env.stack))
                 == InLimbo(s.routineNum, s.pc, s.taskFd, Running(s.env.stack))
            && Workers(s.routineNum, s'.pc) == Workers(s.routineNum, s.pc)
  {
    DeregisterResult(s, found);
    WhoRuns(s.routineNum, s.env, s.pc);
    var r := Running(s.env.stack);
    var s' := Exec(s, Deregister(found)).value;
    var p := At(s'.pc, r);
    ShapeStep(s.routineNum, s.env, s.pc, p);
    LeaveIdle(s.routineNum, s.env.stack, s.pc, s.idle, s.taskFd, s.conns, r, p);
    LeaveRegistry(s.routineNum, s.pc, s.epoll, s.chans, s.timerFd, r, p);
    SetPc(s.pc, r, p);
  }

  lemma DeregisterClockwork(s: State, found: nat)
    requires Inv(s) && Enabled(s, Deregister(found)) && FindsOwn(s.heap, OwnEntry(s), found)
    requires Exec(s, Deregister(found)).Ok?
    ensures var s' := Exec(s, Deregister(found)).value;
            && TimerQueue(s'.env.stack, s'.pc, s'.heap, s'.timers)
            && Batch(s'.env.stack, s'.pc, s'.chans, s'.batch, s'.overtaken)
            && (At(s'.pc, MAIN).Expiring? ==> ExpiredPass(s'.env.stack, s'.pc, s'.heap, s'.timers, s'.clock))
            && (!At(s'.pc, MAIN).Expiring? ==> Covers(s'.armed, s'.heap))
  {
    DeregisterResult(s, found);
    var r := Running(s.env.stack);
    var Parked(fd, c, _) := At(s.pc, r);
    var s' := Exec(s, Deregister(found)).value;
    var p := At(s'.pc, r);
    LeaveTimers(s.env.stack, s.pc, s.heap, s.timers, r, found, p);
    LeaveBatch(s.env.stack, s.pc, s.chans, s.batch, s.overtaken, r, c, s'.chans[c], p);
    SetPc(s.pc, r, p);
    CancelledKeeps(s.armed, s.heap, EntryOf(s.pc, s.timers, r).when, found);
    if At(s.pc, MAIN).Expiring? {
      LeavePass(s.env.stack, s.pc, s.heap, s'.heap, s.timers, s.clock, r, p);
    }
  }

  lemma DeregisterKeeps(s: State, found: nat)
    requires Inv(s) && Enabled(s, Deregister(found)) && FindsOwn(s.heap, OwnEntry(s), found)
    ensures Exec(s, Deregister(found)).Ok? && Inv(Exec(s, Deregister(found)).value)
  {
    DeregisterResult(s, found);
    DeregisterSchedule(s, found);
    DeregisterClockwork(s, found);
  }

  // readwrite_routine after addEpoll

  /** The descriptor of a worker that has come back from addEpoll is registered nowhere. */
  lemma NotRegisteredAnyMore(s: State)
    requires Inv(s) && At(s.pc, Running(s.env.stack)).Echoing?
    ensures var fd := At(s.pc, Running(s.env.stack)).fd;
            && fd !in s.epoll.channels && s.epoll.kernel - {fd} == s.epoll.kernel
            && fd in s.conns && s.conns[fd] == Running(s.env.stack)
  {
    WhoRuns(s.routineNum, s.env, s.pc);
    var r := Running(s.env.stack);
    var fd := At(s.pc, r).fd;
    assert Held(s.pc, s.taskFd, r) == fd && fd in s.conns;
    assert fd in s.epoll.channels ==>
      ParkedOn(s.pc, s.chans, fd, s.epoll.channels[fd])
          && RoutineState(s.routineNum, s.env.stack, s.pc, s.chans[s.epoll.channels[fd]].owner);
    assert fd in s.epoll.channels ==>
      var owner := s.chans[s.epoll.channels[fd]].owner;
      IsWorker(s.routineNum, owner) ==> Held(s.pc, s.taskFd, owner) == fd;
  }

  lemma EchoRegistry(pc: Pcs, view: View<ChanId>, chans: seq<Channel>, timerFd: int, r: Rid, p: Pc)
    requires Registry(pc, view, chans, timerFd) && 1 <= r && At(pc, r).Echoing? && Plain(p)
    ensures var c := At(pc, r).chan;
            && 0 < c < |chans| && chans[c].owner == r
            && Registry(pc[r := p], view, chans[c := chans[c].(alive := false)], timerFd)
  {
    var c := At(pc, r).chan;
    assert Deregistered(pc, chans, r);
    var pc', chans' := pc[r := p], chans[c := chans[c].(alive := false)];
    SetPc(pc, r, p);
    forall x: Rid | 1 <= x && At(pc', x).Parked?
      ensures Registered(pc', view, chans', x)
    {
      assert Registered(pc, view, chans, x);
    }
    forall x: Rid | 1 <= x && At(pc', x).Echoing?
      ensures Deregistered(pc', chans', x)
    {
      assert Deregistered(pc, chans, x);
    }
    forall f | f in view.channels && f != timerFd
      ensures ParkedOn(pc', chans', f, view.channels[f])
    {
      assert ParkedOn(pc, chans, f, view.channels[f]);
    }
    forall k: ChanId | 0 < k < |chans'| && chans'[k].alive
      ensures InScope(pc', chans', k)
    {
      assert InScope(pc, chans, k);
    }
  }

  /** The timers and the batch do not concern a running worker outside addEpoll. */
  lemma EchoClockwork(s: State, r: Rid, p: Pc, x: Channel)
    requires Inv(s) && r == Running(s.env.stack) && At(s.pc, r).Echoing? && Plain(p) && x.owner == r
    ensures 1 <= r && r in s.env.stack && 0 < At(s.pc, r).chan < |s.chans|
    ensures TimerQueue(s.env.stack, s.pc[r := p], s.heap, s.timers)
    ensures At(s.pc, MAIN).Expiring? ==> ExpiredPass(s.env.stack, s.pc[r := p], s.heap, s.timers, s.clock)
    ensures Batch(s.env.stack, s.pc[r := p], s.chans[At(s.pc, r).chan := x], s.batch, s.overtaken)
  {
    WhoRuns(s.routineNum, s.env, s.pc);
    assert Deregistered(s.pc, s.chans, r);
    LeaveBatch(s.env.stack, s.pc, s.chans, s.batch, s.overtaken, r, At(s.pc, r).chan, x, p);
    TimersOfOthers(s.env.stack, s.pc, s.heap, s.timers, r, p);
    if At(s.pc, MAIN).Expiring? {
      LeavePass(s.env.stack, s.pc, s.heap, s.heap, s.timers, s.clock, r, p);
    }
  }

  lemma TimersOfOthers(stack: seq<Rid>, pc: Pcs, heap: seq<Entry<TimerId>>, timers: seq<Timer>, r: Rid, p: Pc)
    requires TimerQueue(stack, pc, heap, timers) && 1 <= r && !At(pc, r).Parked? && !p.Parked?
    ensures TimerQueue(stack, pc[r := p], heap, timers)
  {
    SetPc(pc, r, p);
    var pc' := pc[r := p];
    forall e | e in heap
      ensures OwnedTimer(pc', timers, e)
    {
      assert OwnedTimer(pc, timers, e);
    }
    forall x: Rid | 1 <= x && At(pc', x).Parked?
      ensures TimerOfParked(stack, pc', heap, timers, x)
    {
      assert TimerOfParked(stack, pc, heap, timers, x);
    }
  }

  lemma EchoIdle(n: nat, stack: seq<Rid>, pc: Pcs, idle: seq<Rid>, taskFd: map<Rid, int>, r: Rid, p: Pc)
    requires IdleStack(n, stack, pc, idle, taskFd) && r in stack && !At(pc, r).LoopTop?
    ensures IdleStack(n, stack, pc[r := p], idle, taskFd)
  {
    var pc' := pc[r := p];
    SetPc(pc, r, p);
    forall x: Rid
      ensures x in idle <==> Idle(n, stack, pc', x)
    {
      assert x in idle <==> Idle(n, stack, pc, x);
    }
  }

  lemma EchoConnections(n: nat, pc: Pcs, taskFd: map<Rid, int>, conns: map<int, Rid>, r: Rid, keep: bool)
    requires Connections(n, pc, taskFd, conns) && IsWorker(n, r) && At(pc, r).Echoing? && TaskFd(taskFd, r) == -1
    ensures var fd := At(pc, r).fd;
            if keep then Connections(n, pc[r := Registering(fd)], taskFd, conns)
            else Connections(n, pc[r := LoopTop], taskFd, conns - {fd}) && |conns - {fd}| == |conns| - 1
  {
    var fd := At(pc, r).fd;
    assert Held(pc, taskFd, r) == fd && fd in conns;
    SetPc(pc, r, Registering(fd));
    SetPc(pc, r, LoopTop);
    var p := if keep then Registering(fd) else LoopTop;
    forall x: Rid | IsWorker(n, x) && x != r
      ensures Held(pc[r := p], taskFd, x) == Held(pc, taskFd, x)
    {
    }
    assert (conns - {fd}).Keys == conns.Keys - {fd};
    assert |(conns - {fd}).Keys| == |conns.Keys| - 1;
    forall x: Rid | IsWorker(n, x) && x != r && (Serving(At(pc, x)) || Held(pc, taskFd, x) != -1)
      ensures Held(pc, taskFd, x) != fd
    {
    }
  }

  lemma EchoSchedule(s: State, keep: bool)
    requires Inv(s) && At(s.pc, Running(s.env.stack)).Echoing?
    ensures var r := Running(s.env.stack);
            var Echoing(fd, c) := At(s.pc, r);
            var pc' := s.pc[r := if keep then Registering(fd) else LoopTop];
            && IsWorker(s.routineNum, r) && r in s.env.stack && fd in s.open && c < |s.chans| && s.chans[c].owner == r
            && Shape(s.routineNum, s.env, pc') && Unborn(s.routineNum, pc') == Unborn(s.routineNum, s.pc)
            && IdleStack(s.routineNum, s.env.stack, pc', s.idle, s.taskFd)
                 && AcceptorListens(s.routineNum, pc', s.listenFd)
            && Registry(pc', s.epoll, s.chans[c := s.chans[c].(alive := false)], s.timerFd)
            && (if keep then Connections(s.routineNum, pc', s.taskFd, s.conns)
                else Connections(s.routineNum, pc', s.taskFd, s.conns - {fd}) && |s.conns - {fd}| == |s.conns| - 1)
            && InLimbo(s.routineNum, pc', s.taskFd, r) == (if keep then 0 else 1)
                 && InLimbo(s.routineNum, s.pc, s.taskFd, r) == 0
  {
    WhoRuns(s.routineNum, s.env, s.pc);
    NotRegisteredAnyMore(s);
    var r := Running(s.env.stack);
    var Echoing(fd, c) := At(s.pc, r);
    var p := if keep then Registering(fd) else LoopTop;
    ShapeStep(s.routineNum, s.env, s.pc, p);
    EchoRegistry(s.pc, s.epoll, s.chans, s.timerFd, r, p);
    EchoIdle(s.routineNum, s.env.stack, s.pc, s.idle, s.taskFd, r, p);
    EchoConnections(s.routineNum, s.pc, s.taskFd, s.conns, r, keep);
    SetPc(s.pc, r, p);
  }

  lemma EchoResult(s: State, readRet: int, writeRet: int, again: bool)
    requires Inv(s) && Enabled(s, Echo(readRet, writeRet, again))
    ensures Exec(s, Echo(readRet, writeRet, again)).Ok?
    ensures var keep, r := KeepServing(readRet, writeRet, again), Running(s.env.stack);
            var Echoing(fd, c) := At(s.pc, r);
            var s' := Exec(s, Echo(readRet, writeRet, again)).value;
            && c < |s.chans| && fd in s.conns && MAIN != r
            && s' == s.(pc := s.pc[r := if keep then Registering(fd) else LoopTop],
                        chans := s.chans[c := s.chans[c].(alive := false)],
                        open := s'.open, conns := s'.conns, closed := s'.closed)
            && (keep ==> s'.open == s.open && s'.conns == s.conns && s'.closed == s.closed)
            && (!keep ==> s'.open == s.open - {fd} && s'.conns == s.conns - {fd} && s'.closed == s.closed + 1)
  {
    EchoSchedule(s, KeepServing(readRet, writeRet, again));
    NotRegisteredAnyMore(s);
  }

  lemma EchoKeepsSchedule(s: State, readRet: int, writeRet: int, again: bool)
    requires Inv(s) && Enabled(s, Echo(readRet, writeRet, again)) && Exec(s, Echo(readRet, writeRet, again)).Ok?
    ensures Schedule(Exec(s, Echo(readRet, writeRet, again)).value)
  {
    EchoResult(s, readRet, writeRet, again);
    EchoSchedule(s, KeepServing(readRet, writeRet, again));
    EchoAssembles(s, Exec(s, Echo(readRet, writeRet, again)).value, KeepServing(readRet, writeRet, again));
  }

  /** A worker has gone on to read again, or has closed its connection: the parts together. */
  lemma EchoAssembles(s: State, s': State, keep: bool)
    requires Schedule(s)
    requires s' == s.(pc := s'.pc, chans := s'.chans, open := s'.open, conns := s'.conns, closed := s'.closed,
                      epoll := s'.epoll)
    requires Shape(s.routineNum, s.env, s'.pc) && Unborn(s.routineNum, s'.pc) == Unborn(s.routineNum, s.pc)
    requires IdleStack(s.routineNum, s.env.stack, s'.pc, s.idle, s.taskFd)
    requires AcceptorListens(s.routineNum, s'.pc, s.listenFd)
    requires Connections(s.routineNum, s'.pc, s.taskFd, s'.conns) && Registry(s'.pc, s'.epoll, s'.chans, s.timerFd)
    requires s'.conns.Keys <= s.conns.Keys && (forall fd :: fd in s'.conns ==> fd in s'.open)
    requires s.listenFd in s'.open && s.timerFd in s'.open
    requires var r := Running(s.env.stack);
             && InLimbo(s.routineNum, s.pc, s.taskFd, r) == 0
             && InLimbo(s.routineNum, s'.pc, s.taskFd, r) == (if keep then 0 else 1)
    requires s'.closed == s.closed + (if keep then 0 else 1) && |s'.conns| == |s.conns| - (if keep then 0 else 1)
    ensures Schedule(s')
  {
  }

  lemma EchoKeepsClockwork(s: State, readRet: int, writeRet: int, again: bool)
    requires Inv(s) && Enabled(s, Echo(readRet, writeRet, again)) && Exec(s, Echo(readRet, writeRet, again)).Ok?
    ensures Clockwork(Exec(s, Echo(readRet, writeRet, again)).value)
  {
    var r := Running(s.env.stack);
    var Echoing(fd, c) := At(s.pc, r);
    var p := if KeepServing(readRet, writeRet, again) then Registering(fd) else LoopTop;
    EchoResult(s, readRet, writeRet, again);
    EchoSchedule(s, KeepServing(readRet, writeRet, again));
    EchoClockwork(s, r, p, s.chans[c].(alive := false));
    SetPc(s.pc, r, p);
  }

  lemma EchoKeeps(s: State, readRet: int, writeRet: int, again: bool)
    requires Inv(s) && Enabled(s, Echo(readRet, writeRet, again))
    ensures Exec(s, Echo(readRet, writeRet, again)).Ok? && Inv(Exec(s, Echo(readRet, writeRet, again)).value)
  {
    EchoResult(s, readRet, writeRet, again);
    EchoKeepsSchedule(s, readRet, writeRet, again);
    EchoKeepsClockwork(s, readRet, writeRet, again);
  }

  // Steps that resume a routine

  /** `after` is `before` with `r` on top. */
  ghost predicate Pushed(before: seq<Rid>, after: seq<Rid>, r: Rid) {
    && r !in before && Running(after) == r
    && forall x: Rid :: x in after <==> x in before || x == r
  }

  /** Resuming a routine that is not inside addEpoll leaves the timers alone. */
  lemma TimersPush(stack: seq<Rid>, stack': seq<Rid>, pc: Pcs, heap: seq<Entry<TimerId>>, timers: seq<Timer>,
          clock: int, r: Rid)
    requires TimerQueue(stack, pc, heap, timers) && Pushed(stack, stack', r) && !At(pc, r).Parked?
    ensures TimerQueue(stack', pc, heap, timers)
    ensures At(pc, MAIN).Expiring? && ExpiredPass(stack, pc, heap, timers, clock) ==>
            ExpiredPass(stack', pc, heap, timers, clock)
  {
    forall x: Rid | 1 <= x && At(pc, x).Parked?
      ensures TimerOfParked(stack', pc, heap, timers, x)
    {
      assert TimerOfParked(stack, pc, heap, timers, x);
    }
    if At(pc, MAIN).Expiring? && ExpiredPass(stack, pc, heap, timers, clock) {
      var Expiring(all, done, _) := At(pc, MAIN);
      assert forall j :: done <= j < |all| ==> ToRun(stack, pc, timers, all[j]);
      assert forall j :: 0 <= j < done ==> Ran(stack, pc, timers, all[j]);
    }
  }

  lemma BatchPush(stack: seq<Rid>, stack': seq<Rid>, pc: Pcs, chans: seq<Channel>, batch: seq<ChanId>,
          overtaken: set<Rid>, r: Rid)
    requires Batch(stack, pc, chans, batch, overtaken) && Pushed(stack, stack', r)
    requires r in overtaken || forall c: ChanId :: c in batch && 0 < c < |chans| ==> chans[c].owner != r
    ensures Batch(stack', pc, chans, batch, overtaken)
  {
    forall c | c in batch
      ensures BatchEntry(stack', pc, chans, overtaken, c)
    {
      assert BatchEntry(stack, pc, chans, overtaken, c);
    }
  }

  /** The idle worker on top of g_readwrite is handed the new connection. */
  lemma HandOver(n: nat, stack: seq<Rid>, stack': seq<Rid>, pc: Pcs, idle: seq<Rid>, taskFd: map<Rid, int>,
          conns: map<int, Rid>, fd: int)
    requires IdleStack(n, stack, pc, idle, taskFd) && Connections(n, pc, taskFd, conns)
    requires idle != [] && fd !in conns && 0 <= fd && forall f :: f in conns ==> 0 <= f
    requires Pushed(stack, stack', idle[|idle| - 1]) && !IsWorker(n, Running(stack))
    ensures var w := idle[|idle| - 1];
            && IdleStack(n, stack', pc, idle[..|idle| - 1], taskFd[w := fd])
            && Connections(n, pc, taskFd[w := fd], conns[fd := w])
  {
    var w := idle[|idle| - 1];
    assert w in idle && Idle(n, stack, pc, w);
    assert idle == idle[..|idle| - 1] + [w];
    forall x: Rid
      ensures x in idle[..|idle| - 1] <==> Idle(n, stack', pc, x)
    {
      assert x in idle <==> Idle(n, stack, pc, x);
    }
    forall x: Rid | IsWorker(n, x) && x != w
      ensures Held(pc, taskFd[w := fd], x) == Held(pc, taskFd, x)
    {
    }
  }

  lemma HandOverSchedule(s: State, fd: int)
    requires Inv(s) && Enabled(s, Accepted(fd)) && s.idle != []
    ensures var w := s.idle[|s.idle| - 1];
            && 1 <= w && At(s.pc, w).LoopTop? && IsWorker(s.routineNum, w)
            && Resume(s.env, w).Ok?
            && var env' := Resume(s.env, w).value;
               && Shape(s.routineNum, env', s.pc) && Pushed(s.env.stack, env'.stack, w)
               && IdleStack(s.routineNum, env'.stack, s.pc, s.idle[..|s.idle| - 1], s.taskFd[w := fd])
               && Connections(s.routineNum, s.pc, s.taskFd[w := fd], s.conns[fd := w])
  {
    WhoRuns(s.routineNum, s.env, s.pc);
    var w := s.idle[|s.idle| - 1];
    assert w in s.idle && Idle(s.routineNum, s.env.stack, s.pc, w);
    assert RoutineState(s.routineNum, s.env.stack, s.pc, w);
    ShapeResume(s.routineNum, s.env, s.pc, w);
    HandOver(s.routineNum, s.env.stack, Resume(s.env, w).value.stack, s.pc, s.idle, s.taskFd, s.conns, fd);
  }

  /** The hand-over on the components. */
  lemma HandOverResult(s: State, fd: int)
    requires s.idle != [] && Resume(s.env, s.idle[|s.idle| - 1]).Ok?
    ensures var w := s.idle[|s.idle| - 1];
            DoAccepted(s, fd) == Ok(s.(accepted := s.accepted + 1, open := s.open + {fd}, conns := s.conns[fd := w],
                                       taskFd := s.taskFd[w := fd], idle := s.idle[..|s.idle| - 1],
                                       env := Resume(s.env, w).value))
  {
  }

  lemma HandOverKeepsClockwork(s: State, fd: int)
    requires Inv(s) && Enabled(s, Accepted(fd)) && s.idle != []
    ensures DoAccepted(s, fd).Ok? && Clockwork(DoAccepted(s, fd).value)
  {
    HandOverSchedule(s, fd);
    HandOverResult(s, fd);
    var w, stack' := s.idle[|s.idle| - 1], DoAccepted(s, fd).value.env.stack;
    TimersPush(s.env.stack, stack', s.pc, s.heap, s.timers, s.clock, w);
    AcceptedBatch(s, stack', w);
  }

  /** A new descriptor is not yet among the connections, and the acceptor runs when it arrives. */
  lemma NewConnection(s: State, fd: int)
    requires Inv(s) && Enabled(s, Accepted(fd))
    ensures fd !in s.conns && Descriptors(s.open + {fd}, s.conns[fd := MAIN], s.listenFd, s.timerFd)
    ensures InLimbo(s.routineNum, s.pc, s.taskFd, Running(s.env.stack)) == 0
  {
    WhoRuns(s.routineNum, s.env, s.pc);
  }

  lemma HandOverCounts(s: State, fd: int, w: Rid, stack': seq<Rid>)
    requires fd != -1 && fd !in s.conns && s.idle != [] && Running(stack') == w
    ensures |s.idle[..|s.idle| - 1]| + |s.conns[fd := w]| == |s.idle| + |s.conns|
    ensures InLimbo(s.routineNum, s.pc, s.taskFd[w := fd], Running(stack')) == 0
  {
  }

  lemma HandOverKeepsSchedule(s: State, fd: int)
    requires Inv(s) && Enabled(s, Accepted(fd)) && s.idle != []
    ensures DoAccepted(s, fd).Ok? && Schedule(DoAccepted(s, fd).value)
  {
    HandOverSchedule(s, fd);
    HandOverResult(s, fd);
    NewConnection(s, fd);
    HandOverCounts(s, fd, s.idle[|s.idle| - 1], DoAccepted(s, fd).value.env.stack);
  }

  lemma AcceptedKeeps(s: State, fd: int)
    requires Inv(s) && Enabled(s, Accepted(fd))
    ensures Exec(s, Accepted(fd)).Ok? && Inv(Exec(s, Accepted(fd)).value)
  {
    assert Exec(s, Accepted(fd)) == DoAccepted(s, fd);
    if s.idle == [] {
    } else {
      HandOverKeepsSchedule(s, fd);
      HandOverKeepsClockwork(s, fd);
    }
  }

  lemma AcceptedBatch(s: State, stack': seq<Rid>, w: Rid)
    requires Inv(s) && Pushed(s.env.stack, stack', w) && At(s.pc, w).LoopTop?
    ensures Batch(stack', s.pc, s.chans, s.batch, s.overtaken)
  {
    assert forall c :: c in s.batch ==> BatchEntry(s.env.stack, s.pc, s.chans, s.overtaken, c);
    BatchPush(s.env.stack, stack', s.pc, s.chans, s.batch, s.overtaken, w);
  }

  // start()

  /** Where main goes on to, and the new routine `i` starts. */
  ghost predicate SpawnTo(n: nat, i: Rid, p: Pc, q: Pc, fd: int) {
    if i == Acceptor(n)
    then p == Polling && q == Accepting && fd == 0
    else p == Spawning(i + 1) && q == LoopTop && fd == -1
  }

  lemma SpawnShape(n: nat, env: Env, pc: Pcs, i: Rid, p: Pc, q: Pc, fd: int)
    requires Shape(n, env, pc) && env.stack == [MAIN] && At(pc, MAIN) == Spawning(i) && SpawnTo(n, i, p, q, fd)
    ensures 1 <= i <= n + 1 && At(pc, i).NotStarted?
    ensures Resume(env, i).Ok? && Shape(n, Resume(env, i).value, pc[MAIN := p][i := q])
    ensures Pushed([MAIN], Resume(env, i).value.stack, i)
  {
    SetPc(pc, MAIN, p);
    SetPc(pc[MAIN := p], i, q);
    assert RoutineState(n, env.stack, pc, i);
    ResumeDisciplined(env, i);
    var env', pc' := Resume(env, i).value, pc[MAIN := p][i := q];
    assert env'.stack == [MAIN, i];
    forall x: Rid
      ensures RoutineState(n, env'.stack, pc', x)
    {
      assert RoutineState(n, env.stack, pc, x);
    }
  }

  /** The new routine `i` is the running one, and has no descriptor. */
  lemma SpawnIdle(n: nat, stack: seq<Rid>, stack': seq<Rid>, pc: Pcs, pc': Pcs, idle: seq<Rid>, taskFd: map<Rid, int>,
          conns: map<int, Rid>, i: Rid, fd: int)
    requires IdleStack(n, stack, pc, idle, taskFd) && Connections(n, pc, taskFd, conns)
    requires !IsWorker(n, Running(stack)) && Pushed(stack, stack', i) && At(pc, i).NotStarted? && 1 <= i
    requires forall x: Rid :: 1 <= x && x != i ==> At(pc', x) == At(pc, x)
    requires IsWorker(n, i) ==> fd == -1 && At(pc', i).LoopTop?
    requires forall f :: f in conns ==> 0 <= f
    ensures IdleStack(n, stack', pc', idle, taskFd[i := fd]) && Connections(n, pc', taskFd[i := fd], conns)
  {
    forall x: Rid
      ensures x in idle <==> Idle(n, stack', pc', x)
    {
      assert x in idle <==> Idle(n, stack, pc, x);
    }
    forall x: Rid | IsWorker(n, x)
      ensures Held(pc', taskFd[i := fd], x) == Held(pc, taskFd, x)
      ensures Serving(At(pc', x)) == Serving(At(pc, x))
    {
    }
  }

  /** Who is counted as created: the new routine, when it is a worker, is the one in between. */
  lemma SpawnCounts(n: nat, pc: Pcs, i: Rid, p: Pc, q: Pc, taskFd: map<Rid, int>, fd: int)
    requires At(pc, MAIN) == Spawning(i) && 1 <= i <= n + 1 && SpawnTo(n, i, p, q, fd)
    ensures var pc' := pc[MAIN := p][i := q];
            Workers(n, pc') == Workers(n, pc) + InLimbo(n, pc', taskFd[i := fd], i)
  {
    SetPc(pc, MAIN, p);
    SetPc(pc[MAIN := p], i, q);
  }

  /** DoSpawn on the components. */
  lemma SpawnResult(s: State, i: Rid, p: Pc, q: Pc, fd: int)
    requires Resume(s.env, i).Ok? && SpawnTo(s.routineNum, i, p, q, fd)
    ensures DoSpawn(s, i) ==
            Ok(s.(env := Resume(s.env, i).value, taskFd := s.taskFd[i := fd], pc := s.pc[MAIN := p][i := q]))
  {
  }

  lemma SpawnRegistry(pc: Pcs, view: View<ChanId>, chans: seq<Channel>, timerFd: int, p: Pc, i: Rid, q: Pc)
    requires Registry(pc, view, chans, timerFd) && 1 <= i && Plain(At(pc, MAIN)) && Plain(At(pc, i)) && Plain(p)
             && Plain(q)
    ensures Registry(pc[MAIN := p][i := q], view, chans, timerFd)
  {
    SetPc(pc, MAIN, p);
    RegistryPlain(pc, view, chans, timerFd, MAIN, p);
    RegistryPlain(pc[MAIN := p], view, chans, timerFd, i, q);
  }

  /** The parts of the scheduler that do not look at main. */
  lemma SpawnTasks(s: State, i: Rid, stack': seq<Rid>, p: Pc, q: Pc, fd: int)
    requires Inv(s) && s.env.stack == [MAIN] && Pushed([MAIN], stack', i) && At(s.pc, i).NotStarted? && 1 <= i
    requires if IsWorker(s.routineNum, i) then fd == -1 && q == LoopTop else !q.Parked?
    ensures var pc' := s.pc[MAIN := p][i := q];
            && IdleStack(s.routineNum, stack', pc', s.idle, s.taskFd[i := fd])
            && Connections(s.routineNum, pc', s.taskFd[i := fd], s.conns)
            && AcceptorListens(s.routineNum, pc', s.listenFd)
            && At(pc', MAIN) == p && At(pc', i) == q
  {
    SetPc(s.pc, MAIN, p);
    SetPc(s.pc[MAIN := p], i, q);
    SpawnIdle(s.routineNum, s.env.stack, stack', s.pc, s.pc[MAIN := p][i := q], s.idle, s.taskFd, s.conns, i, fd);
  }

  /** Routine `i` has been created and runs: the parts of the new state together. */
  lemma SpawnAssembles(s: State, s': State, i: Rid)
    requires Schedule(s) && s.env.stack == [MAIN]
    requires s' == s.(env := s'.env, pc := s'.pc, taskFd := s'.taskFd) && Running(s'.env.stack) == i
    requires Shape(s.routineNum, s'.env, s'.pc) && Registry(s'.pc, s.epoll, s.chans, s.timerFd)
    requires IdleStack(s.routineNum, s'.env.stack, s'.pc, s.idle, s'.taskFd)
    requires Connections(s.routineNum, s'.pc, s'.taskFd, s.conns) && AcceptorListens(s.routineNum, s'.pc, s.listenFd)
    requires Workers(s.routineNum, s'.pc) == Workers(s.routineNum, s.pc) + InLimbo(s.routineNum, s'.pc, s'.taskFd, i)
    ensures Schedule(s')
  {
  }

  lemma SpawnSchedule(s: State, i: Rid, p: Pc, q: Pc, fd: int)
    requires Inv(s) && s.env.stack == [MAIN] && At(s.pc, MAIN) == Spawning(i) && SpawnTo(s.routineNum, i, p, q, fd)
    ensures DoSpawn(s, i).Ok? && Schedule(DoSpawn(s, i).value)
  {
    SpawnShape(s.routineNum, s.env, s.pc, i, p, q, fd);
    SpawnResult(s, i, p, q, fd);
    SpawnTasks(s, i, Resume(s.env, i).value.stack, p, q, fd);
    SpawnRegistry(s.pc, s.epoll, s.chans, s.timerFd, p, i, q);
    SpawnCounts(s.routineNum, s.pc, i, p, q, s.taskFd, fd);
    SpawnAssembles(s, DoSpawn(s, i).value, i);
  }

  lemma SpawnClockwork(s: State, i: Rid, p: Pc, q: Pc, fd: int)
    requires Inv(s) && s.env.stack == [MAIN] && At(s.pc, MAIN) == Spawning(i) && SpawnTo(s.routineNum, i, p, q, fd)
    ensures DoSpawn(s, i).Ok? && Clockwork(DoSpawn(s, i).value)
  {
    SpawnShape(s.routineNum, s.env, s.pc, i, p, q, fd);
    SpawnResult(s, i, p, q, fd);
    var s' := DoSpawn(s, i).value;
    SetPc(s.pc, MAIN, p);
    SetPc(s.pc[MAIN := p], i, q);
    TimersPlain(s.env.stack, s.pc, s.heap, s.timers, MAIN, p);
    TimersPlain(s.env.stack, s.pc[MAIN := p], s.heap, s.timers, i, q);
    TimersPush(s.env.stack, s'.env.stack, s'.pc, s.heap, s.timers, s.clock, i);
  }

  lemma SpawnKeeps(s: State)
    requires Inv(s) && Enabled(s, Spawn)
    ensures Exec(s, Spawn).Ok? && Inv(Exec(s, Spawn).value)
  {
    WhoRuns(s.routineNum, s.env, s.pc);
    var i := At(s.pc, MAIN).next;
    var acceptor := i == Acceptor(s.routineNum);
    var p, q := if acceptor then Polling else Spawning(i + 1), if acceptor then Accepting else LoopTop;
    var fd := if acceptor then 0 else -1;
    SpawnSchedule(s, i, p, q, fd);
    SpawnClockwork(s, i, p, q, fd);
  }

  // EventLoop::loop()

  /** Main goes on to `p` while no routine runs: the parts that do not look at main. */
  lemma MainStep(s: State, p: Pc)
    requires Inv(s) && s.env.stack == [MAIN] && MainPc(p) && !p.Spawning? && !At(s.pc, MAIN).Spawning?
    ensures Shape(s.routineNum, s.env, s.pc[MAIN := p])
    ensures IdleStack(s.routineNum, s.env.stack, s.pc[MAIN := p], s.idle, s.taskFd)
    ensures Connections(s.routineNum, s.pc[MAIN := p], s.taskFd, s.conns)
    ensures AcceptorListens(s.routineNum, s.pc[MAIN := p], s.listenFd)
    ensures Workers(s.routineNum, s.pc[MAIN := p]) == Workers(s.routineNum, s.pc)
  {
    WhoRuns(s.routineNum, s.env, s.pc);
    assert RoutineState(s.routineNum, s.env.stack, s.pc, MAIN);
    ShapeStep(s.routineNum, s.env, s.pc, p);
    EchoIdle(s.routineNum, s.env.stack, s.pc, s.idle, s.taskFd, MAIN, p);
    SetPc(s.pc, MAIN, p);
    forall x: Rid | IsWorker(s.routineNum, x)
      ensures Held(s.pc[MAIN := p], s.taskFd, x) == Held(s.pc, s.taskFd, x)
    {
    }
  }

  /** What the kernel reports are the channels of routines that wait, each once. */
  lemma PollBatch(stack: seq<Rid>, pc: Pcs, view: View<ChanId>, chans: seq<Channel>, timerFd: int, ready: seq<int>)
    requires Registry(pc, view, chans, timerFd) && stack == [MAIN] && At(pc, MAIN).Dispatching?
    requires forall i :: 0 <= i < |ready| ==> ready[i] in view.kernel
    requires forall i, j :: 0 <= i < j < |ready| ==> ready[i] != ready[j]
    ensures Batch(stack, pc, chans, ActiveChannels(view.kernel, ready), {})
  {
    var batch := ActiveChannels(view.kernel, ready);
    forall i | 0 <= i < |ready|
      ensures batch[i] < |chans| && chans[batch[i]].fd == ready[i] && BatchEntry(stack, pc, chans, {}, batch[i])
    {
      assert ready[i] in view.channels;
      if ready[i] != timerFd {
        assert ParkedOn(pc, chans, ready[i], view.channels[ready[i]]);
        assert Registered(pc, view, chans, chans[view.channels[ready[i]]].owner);
      }
    }
  }

  lemma PollKeeps(s: State, ready: seq<int>)
    requires Inv(s) && Enabled(s, Poll(ready))
    ensures Exec(s, Poll(ready)).Ok? && Inv(Exec(s, Poll(ready)).value)
  {
    WhoRuns(s.routineNum, s.env, s.pc);
    MainStep(s, Dispatching);
    RegistryPlain(s.pc, s.epoll, s.chans, s.timerFd, MAIN, Dispatching);
    TimersPlain(s.env.stack, s.pc, s.heap, s.timers, MAIN, Dispatching);
    SetPc(s.pc, MAIN, Dispatching);
    PollBatch(s.env.stack, s.pc[MAIN := Dispatching], s.epoll, s.chans, s.timerFd, ready);
  }

  lemma EndBatchKeeps(s: State)
    requires Inv(s) && Enabled(s, EndBatch)
    ensures Exec(s, EndBatch).Ok? && Inv(Exec(s, EndBatch).value)
  {
    WhoRuns(s.routineNum, s.env, s.pc);
    MainStep(s, Polling);
    RegistryPlain(s.pc, s.epoll, s.chans, s.timerFd, MAIN, Polling);
    TimersPlain(s.env.stack, s.pc, s.heap, s.timers, MAIN, Polling);
    SetPc(s.pc, MAIN, Polling);
  }

  // Dispatch of a channel

  /** The entry that main dispatches next is alive unless a timer has overtaken its owner. */
  lemma LiveEntry(s: State)
    requires Inv(s) && Enabled(s, Dispatch)
    ensures var c := s.batch[0];
            && (Chan(s, c).alive <==> c == TIMERFD_CHANNEL || Chan(s, c).owner !in s.overtaken)
            && (Chan(s, c).alive && c != TIMERFD_CHANNEL ==>
                  var r := Chan(s, c).owner;
                  1 <= r && r !in s.env.stack && At(s.pc, r).Parked? && At(s.pc, r).chan == c)
  {
    WhoRuns(s.routineNum, s.env, s.pc);
    var c := s.batch[0];
    assert BatchEntry(s.env.stack, s.pc, s.chans, s.overtaken, c);
    assert c != TIMERFD_CHANNEL && Chan(s, c).owner !in s.overtaken ==>
        Registered(s.pc, s.epoll, s.chans, Chan(s, c).owner);
  }

  lemma WakeTimers(stack: seq<Rid>, stack': seq<Rid>, pc: Pcs, heap: seq<Entry<TimerId>>, timers: seq<Timer>, r: Rid)
    requires TimerQueue(stack, pc, heap, timers) && Pushed(stack, stack', r) && 1 <= r
    requires At(pc, r).Parked? ==> Todo(At(pc, MAIN)) == []
    ensures TimerQueue(stack', pc, heap, timers)
  {
    forall x: Rid | 1 <= x && At(pc, x).Parked?
      ensures TimerOfParked(stack', pc, heap, timers, x)
    {
      assert TimerOfParked(stack, pc, heap, timers, x);
    }
  }

  lemma WakeBatch(stack: seq<Rid>, stack': seq<Rid>, pc: Pcs, chans: seq<Channel>, batch: seq<ChanId>,
          overtaken: set<Rid>, r: Rid)
    requires Batch(stack, pc, chans, batch, overtaken) && batch != [] && stack == [MAIN] && Pushed(stack, stack', r)
    requires At(pc, r).Parked? && At(pc, r).chan == batch[0] && r !in overtaken
    ensures Batch(stack', pc, chans, batch[1..], overtaken)
  {
    forall c | c in batch[1..]
      ensures BatchEntry(stack', pc, chans, overtaken, c)
    {
      assert c in batch && c != batch[0] && BatchEntry(stack, pc, chans, overtaken, c);
    }
  }

  lemma WakeIdle(n: nat, stack: seq<Rid>, stack': seq<Rid>, pc: Pcs, idle: seq<Rid>, taskFd: map<Rid, int>, r: Rid)
    requires IdleStack(n, stack, pc, idle, taskFd) && Pushed(stack, stack', r) && At(pc, r).Parked?
             && !IsWorker(n, Running(stack))
    ensures IdleStack(n, stack', pc, idle, taskFd)
    ensures InLimbo(n, pc, taskFd, Running(stack')) == InLimbo(n, pc, taskFd, Running(stack)) == 0
  {
    forall x: Rid
      ensures x in idle <==> Idle(n, stack', pc, x)
    {
      assert x in idle <==> Idle(n, stack, pc, x);
    }
  }

  lemma DispatchChannelKeeps(s: State)
    requires Inv(s) && Enabled(s, Dispatch) && s.batch[0] != TIMERFD_CHANNEL
             && Chan(s, s.batch[0]).owner !in s.overtaken
    ensures Exec(s, Dispatch).Ok? && Inv(Exec(s, Dispatch).value)
  {
    WhoRuns(s.routineNum, s.env, s.pc);
    LiveEntry(s);
    var r := Chan(s, s.batch[0]).owner;
    assert RoutineState(s.routineNum, s.env.stack, s.pc, r);
    ShapeResume(s.routineNum, s.env, s.pc, r);
    var s' := Exec(s, Dispatch).value;
    WakeIdle(s.routineNum, s.env.stack, s'.env.stack, s.pc, s.idle, s.taskFd, r);
    WakeTimers(s.env.stack, s'.env.stack, s.pc, s.heap, s.timers, r);
    WakeBatch(s.env.stack, s'.env.stack, s.pc, s.chans, s.batch, s.overtaken, r);
  }

  // Dispatch of the timerfd: handleRead

  /** getExpired's assert holds exactly when no live deadline equals the clock. */
  lemma GetExpiredAsserts(heap: seq<Entry<TimerId>>, now: int)
    requires Sorted(heap)
    ensures var k := LowerBound(heap, now);
            (k < |heap| && !(now < heap[k].when)) <==> exists e :: e in heap && e.when == now
  {
    SplitAtNow(heap, now);
    var k := LowerBound(heap, now);
    if e :| e in heap && e.when == now {
      assert e in heap[k..];
    }
  }

  lemma ExpireQueue(stack: seq<Rid>, pc: Pcs, heap: seq<Entry<TimerId>>, timers: seq<Timer>, now: int)
    requires TimerQueue(stack, pc, heap, timers) && stack == [MAIN] && Todo(At(pc, MAIN)) == []
    ensures var k := LowerBound(heap, now);
            TimerQueue(stack, pc[MAIN := Expiring(heap[..k], 0, now)], heap[k..], timers)
  {
    var k := LowerBound(heap, now);
    var pc' := pc[MAIN := Expiring(heap[..k], 0, now)];
    assert Sorted(heap[k..]) && (forall e :: e in heap <==> e in heap[..k] || e in heap[k..]) by {
      SplitAtNow(heap, now);
    }
    SetPc(pc, MAIN, Expiring(heap[..k], 0, now));
    forall e | e in heap[k..]
      ensures OwnedTimer(pc', timers, e)
    {
      assert OwnedTimer(pc, timers, e);
    }
    assert Todo(At(pc', MAIN)) == heap[..k];
    forall x: Rid | 1 <= x && At(pc', x).Parked?
      ensures TimerOfParked(stack, pc', heap[k..], timers, x)
    {
      assert TimerOfParked(stack, pc, heap, timers, x);
      assert EntryOf(pc', timers, x) == EntryOf(pc, timers, x);
    }
  }

  /** Every timer in the queue has a waiting owner when no routine runs. */
  lemma QueuedToRun(stack: seq<Rid>, pc: Pcs, pc': Pcs, heap: seq<Entry<TimerId>>, timers: seq<Timer>,
          e: Entry<TimerId>)
    requires TimerQueue(stack, pc, heap, timers) && stack == [MAIN] && e in heap
    requires forall x: Rid :: 1 <= x ==> At(pc', x) == At(pc, x)
    ensures ToRun(stack, pc', timers, e) && !timers[e.timer].freed
  {
    assert OwnedTimer(pc, timers, e);
    assert TimerOfParked(stack, pc, heap, timers, timers[e.timer].owner);
  }

  lemma ExpirePass(stack: seq<Rid>, pc: Pcs, heap: seq<Entry<TimerId>>, timers: seq<Timer>, now: int)
    requires TimerQueue(stack, pc, heap, timers) && stack == [MAIN]
    requires !exists e :: e in heap && e.when == now
    ensures var k := LowerBound(heap, now);
            ExpiredPass(stack, pc[MAIN := Expiring(heap[..k], 0, now)], heap[k..], timers, now)
  {
    var k := LowerBound(heap, now);
    var pc' := pc[MAIN := Expiring(heap[..k], 0, now)];
    assert forall e :: e in heap[k..] ==> now < e.when by {
      SplitAtNow(heap, now);
    }
    SetPc(pc, MAIN, Expiring(heap[..k], 0, now));
    ExpiredToRun(stack, pc, pc', heap, timers, k);
  }

  lemma ExpiredToRun(stack: seq<Rid>, pc: Pcs, pc': Pcs, heap: seq<Entry<TimerId>>, timers: seq<Timer>, k: nat)
    requires TimerQueue(stack, pc, heap, timers) && stack == [MAIN] && k <= |heap|
    requires forall x: Rid :: 1 <= x ==> At(pc', x) == At(pc, x)
    ensures forall j :: 0 <= j < k ==> ToRun(stack, pc', timers, heap[..k][j]) && !timers[heap[..k][j].timer].freed
    ensures forall e :: e in heap[..k] ==>
              e.timer < |timers| && timers[e.timer].when == e.when && !timers[e.timer].freed
  {
    forall e | e in heap[..k]
      ensures ToRun(stack, pc', timers, e) && !timers[e.timer].freed && timers[e.timer].when == e.when
    {
      QueuedToRun(stack, pc, pc', heap, timers, e);
    }
  }

  lemma ExpireClockwork(s: State)
    requires Inv(s) && At(s.pc, Running(s.env.stack)).Dispatching? && s.batch != []
    requires forall e :: e in s.heap ==> e.when != s.clock
    ensures var k := LowerBound(s.heap, s.clock);
            var pc' := s.pc[MAIN := Expiring(s.heap[..k], 0, s.clock)];
            && TimerQueue(s.env.stack, pc', s.heap[k..], s.timers)
            && ExpiredPass(s.env.stack, pc', s.heap[k..], s.timers, s.clock)
            && Batch(s.env.stack, pc', s.chans, s.batch[1..], s.overtaken)
  {
    WhoRuns(s.routineNum, s.env, s.pc);
    ExpireQueue(s.env.stack, s.pc, s.heap, s.timers, s.clock);
    ExpirePass(s.env.stack, s.pc, s.heap, s.timers, s.clock);
    DispatchBatch(s.env.stack, s.pc, s.chans, s.batch, s.overtaken,
          Expiring(s.heap[..LowerBound(s.heap, s.clock)], 0, s.clock));
  }

  /** handleRead starts unless getExpired's assert fails. */
  lemma DispatchTimerFdResult(s: State)
    requires Inv(s) && Enabled(s, Dispatch) && s.batch[0] == TIMERFD_CHANNEL
    ensures Exec(s, Dispatch) ==
            if exists e :: e in s.heap && e.when == s.clock then Fault(HeapAssertion) else
            var k := LowerBound(s.heap, s.clock);
            Ok(s.(armed := ReadTimerFd(s.armed, s.clock), heap := s.heap[k..], batch := s.batch[1..],
                  pc := s.pc[MAIN := Expiring(s.heap[..k], 0, s.clock)]))
  {
    WhoRuns(s.routineNum, s.env, s.pc);
    GetExpiredAsserts(s.heap, s.clock);
  }

  lemma ExpireKeepsSchedule(s: State)
    requires Inv(s) && Enabled(s, Dispatch) && s.batch[0] == TIMERFD_CHANNEL && Exec(s, Dispatch).Ok?
    ensures Schedule(Exec(s, Dispatch).value)
  {
    DispatchTimerFdResult(s);
    WhoRuns(s.routineNum, s.env, s.pc);
    var p := Expiring(s.heap[..LowerBound(s.heap, s.clock)], 0, s.clock);
    MainStep(s, p);
    RegistryPlain(s.pc, s.epoll, s.chans, s.timerFd, MAIN, p);
  }

  lemma ExpireKeepsClockwork(s: State)
    requires Inv(s) && Enabled(s, Dispatch) && s.batch[0] == TIMERFD_CHANNEL && Exec(s, Dispatch).Ok?
    ensures Clockwork(Exec(s, Dispatch).value)
  {
    DispatchTimerFdResult(s);
    ExpireClockwork(s);
    SetPc(s.pc, MAIN, Expiring(s.heap[..LowerBound(s.heap, s.clock)], 0, s.clock));
  }

  lemma ExpireKeeps(s: State)
    requires Inv(s) && Enabled(s, Dispatch) && s.batch[0] == TIMERFD_CHANNEL
    requires forall e :: e in s.heap ==> e.when != s.clock
    ensures Exec(s, Dispatch).Ok? && Inv(Exec(s, Dispatch).value)
  {
    DispatchTimerFdResult(s);
    ExpireKeepsSchedule(s);
    ExpireKeepsClockwork(s);
  }

  lemma DispatchTimerFdKeeps(s: State)
    requires Inv(s) && Enabled(s, Dispatch) && s.batch[0] == TIMERFD_CHANNEL
    ensures if exists e :: e in s.heap && e.when == s.clock
            then Exec(s, Dispatch) == Fault(HeapAssertion)
            else Exec(s, Dispatch).Ok? && Inv(Exec(s, Dispatch).value)
  {
    if exists e :: e in s.heap && e.when == s.clock {
      DispatchTimerFdResult(s);
    } else {
      ExpireKeeps(s);
    }
  }

  lemma DispatchBatch(stack: seq<Rid>, pc: Pcs, chans: seq<Channel>, batch: seq<ChanId>, overtaken: set<Rid>, p: Pc)
    requires Batch(stack, pc, chans, batch, overtaken) && batch != [] && !p.Spawning? && !p.Polling?
    ensures Batch(stack, pc[MAIN := p], chans, batch[1..], overtaken)
  {
    SetPc(pc, MAIN, p);
    forall c | c in batch[1..]
      ensures BatchEntry(stack, pc[MAIN := p], chans, overtaken, c)
    {
      assert c in batch && BatchEntry(stack, pc, chans, overtaken, c);
    }
  }

  // handleRead's loop

  /** The next timer to run, and the routine that waits for it. */
  lemma NextTimer(s: State)
    requires Inv(s) && Enabled(s, FireTimer)
    ensures At(s.pc, MAIN).Expiring?
    ensures var Expiring(all, done, now) := At(s.pc, MAIN);
            && s.env.stack == [MAIN] && done < |all|
            && var e := all[done];
               var r := TimerOf(s.timers, e.timer).owner;
               && e.timer < |s.timers| && !s.timers[e.timer].freed && e.when < now
               && 1 <= r && r !in s.env.stack && At(s.pc, r).Parked? && At(s.pc, r).timer == e.timer
               && EntryOf(s.pc, s.timers, r) == e && Absent(s.heap, e)
  {
    WhoRuns(s.routineNum, s.env, s.pc);
    var Expiring(all, done, now) := At(s.pc, MAIN);
    assert all[done] in all && ToRun(s.env.stack, s.pc, s.timers, all[done]);
  }

  lemma FireQueue(stack: seq<Rid>, stack': seq<Rid>, pc: Pcs, heap: seq<Entry<TimerId>>, timers: seq<Timer>, r: Rid)
    requires TimerQueue(stack, pc, heap, timers) && Pushed(stack, stack', r) && 1 <= r && At(pc, r).Parked?
    requires var main := At(pc, MAIN);
             main.Expiring? && main.done < |main.all| && EntryOf(pc, timers, r) == main.all[main.done]
                 && Absent(heap, main.all[main.done])
    ensures var main := At(pc, MAIN);
            TimerQueue(stack', pc[MAIN := main.(done := main.done + 1)], heap, timers)
  {
    var main := At(pc, MAIN);
    var pc' := pc[MAIN := main.(done := main.done + 1)];
    SetPc(pc, MAIN, main.(done := main.done + 1));
    assert Todo(main) == [main.all[main.done]] + Todo(At(pc', MAIN));
    forall e | e in heap
      ensures OwnedTimer(pc', timers, e)
    {
      assert OwnedTimer(pc, timers, e);
    }
    forall x: Rid | 1 <= x && At(pc', x).Parked?
      ensures TimerOfParked(stack', pc', heap, timers, x)
    {
      assert TimerOfParked(stack, pc, heap, timers, x) && TimerOfParked(stack, pc, heap, timers, r);
      assert EntryOf(pc', timers, x) == EntryOf(pc, timers, x);
    }
  }

  lemma FirePass(stack: seq<Rid>, stack': seq<Rid>, pc: Pcs, heap: seq<Entry<TimerId>>, timers: seq<Timer>,
          clock: int, r: Rid)
    requires At(pc, MAIN).Expiring? && ExpiredPass(stack, pc, heap, timers, clock) && Pushed(stack, stack', r) && 1 <= r
    requires var main := At(pc, MAIN);
             main.done < |main.all| && main.all[main.done].timer < |timers|
                 && timers[main.all[main.done].timer].owner == r
             && At(pc, r).Parked? && At(pc, r).timer == main.all[main.done].timer
    ensures var main := At(pc, MAIN);
            ExpiredPass(stack', pc[MAIN := main.(done := main.done + 1)], heap, timers, clock)
  {
    var main := At(pc, MAIN);
    var pc' := pc[MAIN := main.(done := main.done + 1)];
    SetPc(pc, MAIN, main.(done := main.done + 1));
    forall j | main.done + 1 <= j < |main.all|
      ensures ToRun(stack', pc', timers, main.all[j])
    {
      assert ToRun(stack, pc, timers, main.all[j]);
    }
    forall j | 0 <= j < main.done + 1
      ensures Ran(stack', pc', timers, main.all[j])
    {
      assert main.all[j] in main.all;
      assert j < main.done ==> Ran(stack, pc, timers, main.all[j]);
    }
  }

  lemma FireBatch(stack: seq<Rid>, stack': seq<Rid>, pc: Pcs, chans: seq<Channel>, batch: seq<ChanId>,
          overtaken: set<Rid>, r: Rid, p: Pc)
    requires Batch(stack, pc, chans, batch, overtaken) && Pushed(stack, stack', r) && p.Expiring?
    ensures Batch(stack', pc[MAIN := p], chans, batch, overtaken + {r})
  {
    SetPc(pc, MAIN, p);
    forall c | c in batch
      ensures BatchEntry(stack', pc[MAIN := p], chans, overtaken + {r}, c)
    {
      assert BatchEntry(stack, pc, chans, overtaken, c);
    }
  }

  lemma FireResult(s: State)
    requires Inv(s) && Enabled(s, FireTimer)
    ensures At(s.pc, MAIN).Expiring? && At(s.pc, MAIN).done < |At(s.pc, MAIN).all| && Exec(s, FireTimer).Ok?
    ensures var s' := Exec(s, FireTimer).value;
            var main := At(s.pc, MAIN);
            var t := main.all[main.done].timer;
            var r := TimerOf(s.timers, t).owner;
            && s' == s.(pc := s.pc[MAIN := main.(done := main.done + 1)], env := s'.env,
                        fired := s.fired + [t], overtaken := s.overtaken + {r})
            && Pushed(s.env.stack, s'.env.stack, r) && Shape(s.routineNum, s'.env, s'.pc)
  {
    WhoRuns(s.routineNum, s.env, s.pc);
    NextTimer(s);
    var main := At(s.pc, MAIN);
    var r := TimerOf(s.timers, main.all[main.done].timer).owner;
    var p := main.(done := main.done + 1);
    ShapeStep(s.routineNum, s.env, s.pc, p);
    SetPc(s.pc, MAIN, p);
    assert RoutineState(s.routineNum, s.env.stack, s.pc, r);
    ShapeResume(s.routineNum, s.env, s.pc[MAIN := p], r);
  }

  lemma FireSchedule(s: State)
    requires Inv(s) && Enabled(s, FireTimer) && Exec(s, FireTimer).Ok?
    ensures var s' := Exec(s, FireTimer).value;
            && IdleStack(s.routineNum, s'.env.stack, s'.pc, s'.idle, s'.taskFd)
            && Connections(s.routineNum, s'.pc, s'.taskFd, s'.conns)
            && AcceptorListens(s.routineNum, s'.pc, s'.listenFd)
            && Registry(s'.pc, s'.epoll, s'.chans, s'.timerFd)
            && InLimbo(s.routineNum, s'.pc, s'.taskFd, Running(s'.env.stack))
                 == InLimbo(s.routineNum, s.pc, s.taskFd, Running(s.env.stack))
            && Workers(s.routineNum, s'.pc) == Workers(s.routineNum, s.pc)
  {
    NextTimer(s);
    FireResult(s);
    var s' := Exec(s, FireTimer).value;
    MainStep(s, At(s'.pc, MAIN));
    RegistryPlain(s.pc, s.epoll, s.chans, s.timerFd, MAIN, At(s'.pc, MAIN));
    SetPc(s.pc, MAIN, At(s'.pc, MAIN));
    WakeIdle(s.routineNum, s.env.stack, s'.env.stack, s'.pc, s.idle, s.taskFd, Running(s'.env.stack));
  }

  lemma FireClockwork(s: State)
    requires Inv(s) && Enabled(s, FireTimer) && Exec(s, FireTimer).Ok?
    ensures var s' := Exec(s, FireTimer).value;
            && At(s'.pc, MAIN).Expiring?
            && TimerQueue(s'.env.stack, s'.pc, s'.heap, s'.timers)
            && Batch(s'.env.stack, s'.pc, s'.chans, s'.batch, s'.overtaken)
            && ExpiredPass(s'.env.stack, s'.pc, s'.heap, s'.timers, s'.clock)
  {
    NextTimer(s);
    FireResult(s);
    var s' := Exec(s, FireTimer).value;
    var r := Running(s'.env.stack);
    FireQueue(s.env.stack, s'.env.stack, s.pc, s.heap, s.timers, r);
    FirePass(s.env.stack, s'.env.stack, s.pc, s.heap, s.timers, s.clock, r);
    FireBatch(s.env.stack, s'.env.stack, s.pc, s.chans, s.batch, s.overtaken, r, At(s'.pc, MAIN));
  }

  lemma FireTimerKeeps(s: State)
    requires Inv(s) && Enabled(s, FireTimer)
    ensures Exec(s, FireTimer).Ok? && Inv(Exec(s, FireTimer).value)
  {
    FireResult(s);
    FireSchedule(s);
    FireClockwork(s);
  }

  // reset

  /** Every expired timer has been run, and nobody refers to it any more. */
  lemma NobodyWaits(s: State)
    requires Inv(s) && Enabled(s, FinishTimers)
    ensures s.env.stack == [MAIN] && Todo(At(s.pc, MAIN)) == []
    ensures forall e :: e in At(s.pc, MAIN).all ==> e.timer < |s.timers| && !s.timers[e.timer].freed
    ensures forall x: Rid :: 1 <= x && At(s.pc, x).Parked? ==> !InExpired(At(s.pc, MAIN).all, At(s.pc, x).timer)
  {
    WhoRuns(s.routineNum, s.env, s.pc);
    var all := At(s.pc, MAIN).all;
    forall x: Rid | 1 <= x && At(s.pc, x).Parked?
      ensures !InExpired(all, At(s.pc, x).timer)
    {
      assert TimerOfParked(s.env.stack, s.pc, s.heap, s.timers, x);
      assert forall j :: 0 <= j < |all| ==> Ran(s.env.stack, s.pc, s.timers, all[j]);
    }
  }

  /** `after` is `before` with some timers deleted. */
  ghost predicate SomeFreed(before: seq<Timer>, after: seq<Timer>) {
    && |after| == |before|
    && forall t :: 0 <= t < |before| ==> after[t] == before[t].(freed := after[t].freed)
  }

  lemma ResetQueue(stack: seq<Rid>, pc: Pcs, heap: seq<Entry<TimerId>>, timers: seq<Timer>, timers': seq<Timer>, p: Pc)
    requires TimerQueue(stack, pc, heap, timers) && SomeFreed(timers, timers')
    requires Todo(At(pc, MAIN)) == Todo(p) == [] && Plain(At(pc, MAIN)) && Plain(p)
    requires forall x: Rid :: 1 <= x && At(pc, x).Parked? && At(pc, x).timer < |timers| ==>
               timers'[At(pc, x).timer] == timers[At(pc, x).timer]
    ensures TimerQueue(stack, pc[MAIN := p], heap, timers')
  {
    var pc' := pc[MAIN := p];
    SetPc(pc, MAIN, p);
    forall e | e in heap
      ensures OwnedTimer(pc', timers', e)
    {
      assert OwnedTimer(pc, timers, e);
    }
    forall x: Rid | 1 <= x && At(pc', x).Parked?
      ensures TimerOfParked(stack, pc', heap, timers', x)
    {
      assert TimerOfParked(stack, pc, heap, timers, x);
      assert EntryOf(pc', timers', x) == EntryOf(pc, timers, x);
    }
  }

  lemma ResetResult(s: State)
    requires Inv(s) && Enabled(s, FinishTimers)
    ensures Exec(s, FinishTimers).Ok?
    ensures var s' := Exec(s, FinishTimers).value;
            && s'.pc == s.pc[MAIN := Dispatching] && Covers(s'.armed, s.heap)
            && s' == s.(pc := s'.pc, timers := s'.timers, armed := s'.armed)
            && TimerQueue(s.env.stack, s'.pc, s.heap, s'.timers)
  {
    NobodyWaits(s);
    var all := At(s.pc, MAIN).all;
    var s1 := s.(timers := seq(|s.timers|, t requires 0 <= t < |s.timers| =>
                                 if InExpired(all, t) then s.timers[t].(freed := true) else s.timers[t]),
                 pc := s.pc[MAIN := Dispatching]);
    ResetQueue(s.env.stack, s.pc, s.heap, s.timers, s1.timers, Dispatching);
    if s.heap != [] {
      FirstLives(s.env.stack, s1.pc, s.heap, s1.timers);
    }
  }

  lemma FirstLives(stack: seq<Rid>, pc: Pcs, heap: seq<Entry<TimerId>>, timers: seq<Timer>)
    requires TimerQueue(stack, pc, heap, timers) && heap != []
    ensures var t := TimerOf(timers, heap[0].timer);
            !t.freed && t.when == heap[0].when > 0
  {
    assert heap[0] in heap && OwnedTimer(pc, timers, heap[0]);
    assert TimerOfParked(stack, pc, heap, timers, timers[heap[0].timer].owner);
  }

  lemma FinishTimersKeeps(s: State)
    requires Inv(s) && Enabled(s, FinishTimers)
    ensures Exec(s, FinishTimers).Ok? && Inv(Exec(s, FinishTimers).value)
  {
    WhoRuns(s.routineNum, s.env, s.pc);
    ResetResult(s);
    MainStep(s, Dispatching);
    RegistryPlain(s.pc, s.epoll, s.chans, s.timerFd, MAIN, Dispatching);
    SetPc(s.pc, MAIN, Dispatching);
    var s' := Exec(s, FinishTimers).value;
    FinishBatch(s.env.stack, s.pc, s.chans, s.batch, s.overtaken);
  }

  lemma FinishBatch(stack: seq<Rid>, pc: Pcs, chans: seq<Channel>, batch: seq<ChanId>, overtaken: set<Rid>)
    requires Batch(stack, pc, chans, batch, overtaken)
    ensures Batch(stack, pc[MAIN := Dispatching], chans, batch, overtaken)
  {
    SetPc(pc, MAIN, Dispatching);
    forall c | c in batch
      ensures BatchEntry(stack, pc[MAIN := Dispatching], chans, overtaken, c)
    {
      assert BatchEntry(stack, pc, chans, overtaken, c);
    }
  }
}
