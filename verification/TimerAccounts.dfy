/** Timers over all runs of the server, even those in which deadlines collide: where every timer
    is, and when the timerfd wakes main up. */
module TimerAccounts {
  import opened Routines
  import opened Timers
  import opened Reactor
  import opened ReactorInvariant
  import opened ReactorSteps
  import opened Server

  function Ids(h: seq<Entry<TimerId>>): seq<TimerId> {
    if h == [] then [] else [h[0].timer] + Ids(h[1..])
  }

  lemma {:induction false} IdsConcat(a: seq<Entry<TimerId>>, b: seq<Entry<TimerId>>)
    ensures Ids(a + b) == Ids(a) + Ids(b)
  {
    if a == [] {
      assert a + b == b;
    } else {
      IdsConcat(a[1..], b);
      assert (a + b)[1..] == a[1..] + b;
    }
  }

  /** All timers that addTimer has returned so far. */
  function Issued(n: nat): seq<TimerId> {
    if n == 0 then [] else Issued(n - 1) + [n - 1]
  }

  /** Every timer issued is, exactly once, live, expired and to be run, run, or cancelled. */
  ghost predicate Balanced(issued: nat, live: seq<Entry<TimerId>>, todo: seq<Entry<TimerId>>, fired: seq<TimerId>,
          cancelled: seq<TimerId>) {
    multiset(Issued(issued)) == multiset(Ids(live)) + multiset(Ids(todo)) + multiset(fired) + multiset(cancelled)
  }

  /** The queue is sorted by the deadlines of its timers, which are positive. */
  ghost predicate SoundQueue(heap: seq<Entry<TimerId>>, timers: seq<Timer>) {
    && Sorted(heap)
    && (forall e :: e in heap ==> e.timer < |timers| && timers[e.timer].when == e.when && 0 < e.when)
  }

  /** Main, and only main, runs the event loop. */
  ghost predicate Roles(pc: Pcs) {
    && MainPc(At(pc, MAIN)) && (forall r: Rid :: r != MAIN ==> !MainPc(At(pc, r)))
    && (At(pc, MAIN).Spawning? ==> 1 <= At(pc, MAIN).next)
    && (At(pc, MAIN).Expiring? ==> At(pc, MAIN).done <= |At(pc, MAIN).all|)
  }

  /** What holds whatever the deadlines are. Outside handleRead the timerfd covers the earliest
      deadline. */
  ghost predicate QueueInv(s: State) {
    && Roles(s.pc) && 0 <= s.clock && SoundQueue(s.heap, s.timers)
    && (!At(s.pc, MAIN).Expiring? ==> Covers(s.armed, s.heap))
  }

  // The tally under each change of the queue

  lemma CountInsert<T>(a: seq<T>, x: T, b: seq<T>)
    ensures multiset(a + ([x] + b)) == multiset(a + b) + multiset{x}
  {
  }

  lemma IdsInsert(h: seq<Entry<TimerId>>, e: Entry<TimerId>)
    ensures multiset(Ids(Insert(h, e))) == multiset(Ids(h)) + multiset{e.timer}
  {
    var k := LowerBound(h, e.when + 1);
    InsertedAround(h, e, k);
    IdsAround(h[..k], e, h[k..]);
  }

  lemma InsertedAround<T>(h: seq<Entry<T>>, e: Entry<T>, k: nat)
    requires k == LowerBound(h, e.when + 1)
    ensures h == h[..k] + h[k..] && Insert(h, e) == h[..k] + ([e] + h[k..])
  {
    Regroup(h[..k], [e], h[k..]);
  }

  lemma Regroup<T>(a: seq<T>, b: seq<T>, c: seq<T>)
    ensures a + b + c == a + (b + c)
  {
  }

  lemma IdsAround(a: seq<Entry<TimerId>>, e: Entry<TimerId>, b: seq<Entry<TimerId>>)
    ensures multiset(Ids(a + ([e] + b))) == multiset(Ids(a + b)) + multiset{e.timer}
  {
    IdsConcat(a, b);
    IdsConcat(a, [e] + b);
    assert ([e] + b)[1..] == b;
    CountInsert(Ids(a), e.timer, Ids(b));
  }

  lemma ErasedAround<T>(h: seq<T>, k: nat)
    requires k < |h|
    ensures h == h[..k] + ([h[k]] + h[k + 1..])
  {
  }

  lemma IdsErase(h: seq<Entry<TimerId>>, k: nat)
    requires k < |h|
    ensures multiset(Ids(Erase(h, k))) + multiset{h[k].timer} == multiset(Ids(h))
  {
    ErasedAround(h, k);
    IdsAround(h[..k], h[k], h[k + 1..]);
  }

  lemma InsertBalances(h: seq<Entry<TimerId>>, todo: seq<Entry<TimerId>>, fired: seq<TimerId>,
          cancelled: seq<TimerId>, e: Entry<TimerId>)
    requires Balanced(e.timer, h, todo, fired, cancelled)
    ensures Balanced(e.timer + 1, Insert(h, e), todo, fired, cancelled)
  {
    IdsInsert(h, e);
  }

  lemma EraseBalances(issued: nat, h: seq<Entry<TimerId>>, todo: seq<Entry<TimerId>>, fired: seq<TimerId>,
          cancelled: seq<TimerId>, k: nat)
    requires Balanced(issued, h, todo, fired, cancelled) && k < |h|
    ensures Balanced(issued, Erase(h, k), todo, fired, cancelled + [h[k].timer])
  {
    IdsErase(h, k);
  }

  lemma SplitBalances(issued: nat, h: seq<Entry<TimerId>>, fired: seq<TimerId>, cancelled: seq<TimerId>, k: nat)
    requires Balanced(issued, h, [], fired, cancelled) && k <= |h|
    ensures Balanced(issued, h[k..], h[..k], fired, cancelled)
  {
    assert h == h[..k] + h[k..];
    IdsConcat(h[..k], h[k..]);
  }

  lemma FireBalances(issued: nat, h: seq<Entry<TimerId>>, todo: seq<Entry<TimerId>>, fired: seq<TimerId>,
          cancelled: seq<TimerId>)
    requires Balanced(issued, h, todo, fired, cancelled) && todo != []
    ensures Balanced(issued, h, todo[1..], fired + [todo[0].timer], cancelled)
  {
    assert Ids(todo) == [todo[0].timer] + Ids(todo[1..]);
  }

  // What a step can do to the timers

  /** Where the timers of a state are. */
  datatype Whereabouts = Whereabouts(issued: nat, live: seq<Entry<TimerId>>, todo: seq<Entry<TimerId>>,
        fired: seq<TimerId>, cancelled: seq<TimerId>)

  function WhereaboutsOf(s: State): Whereabouts {
    Whereabouts(|s.timers|, s.heap, Todo(At(s.pc, MAIN)), s.fired, s.cancelled)
  }

  ghost predicate Accounted(w: Whereabouts) {
    Balanced(w.issued, w.live, w.todo, w.fired, w.cancelled)
  }

  /** One step: nothing, a new timer, a cancellation, getExpired, or run(). */
  ghost predicate TimerMove(w: Whereabouts, w': Whereabouts) {
    || w' == w
    || (exists e: Entry<TimerId> :: e.timer == w.issued && w' == w.(issued := w.issued + 1, live := Insert(w.live, e)))
    || (exists k: nat :: k < |w.live| && w' == w.(live := Erase(w.live, k),
           cancelled := w.cancelled + [w.live[k].timer]))
    || (exists k: nat :: k <= |w.live| && w.todo == [] && w' == w.(live := w.live[k..], todo := w.live[..k]))
    || (w.todo != [] && w' == w.(todo := w.todo[1..], fired := w.fired + [w.todo[0].timer]))
  }

  lemma IssueBalances(w: Whereabouts, w': Whereabouts, e: Entry<TimerId>)
    requires Accounted(w) && e.timer == w.issued && w' == w.(issued := w.issued + 1, live := Insert(w.live, e))
    ensures Accounted(w')
  {
    InsertBalances(w.live, w.todo, w.fired, w.cancelled, e);
  }

  lemma CancelBalances(w: Whereabouts, w': Whereabouts, k: nat)
    requires Accounted(w) && k < |w.live|
    requires w' == w.(live := Erase(w.live, k), cancelled := w.cancelled + [w.live[k].timer])
    ensures Accounted(w')
  {
    EraseBalances(w.issued, w.live, w.todo, w.fired, w.cancelled, k);
  }

  lemma MovesBalance(w: Whereabouts, w': Whereabouts)
    requires Accounted(w) && TimerMove(w, w')
    ensures Accounted(w')
  {
    if w' == w {
    } else if e: Entry<TimerId> :| e.timer == w.issued && w' == w.(issued := w.issued + 1, live := Insert(w.live, e)) {
      IssueBalances(w, w', e);
    } else if k: nat :| k < |w.live| && w' == w.(live := Erase(w.live, k),
        cancelled := w.cancelled + [w.live[k].timer]) {
      CancelBalances(w, w', k);
    } else if k: nat :| k <= |w.live| && w.todo == [] && w' == w.(live := w.live[k..], todo := w.live[..k]) {
      SplitBalances(w.issued, w.live, w.fired, w.cancelled, k);
    } else {
      FireBalances(w.issued, w.live, w.todo, w.fired, w.cancelled);
    }
  }

  lemma ParkMove(s: State, r: Rid, fd: int, later: int)
    requires r != MAIN && Park(s, r, fd, later).Ok?
    ensures TimerMove(WhereaboutsOf(s), WhereaboutsOf(Park(s, r, fd, later).value))
  {
    SetPc(s.pc, r, Parked(fd, |s.chans|, |s.timers|));
    var e: Entry<TimerId> := Entry(s.clock + TIMEOUT, |s.timers|);
    var w := WhereaboutsOf(s);
    assert WhereaboutsOf(Park(s, r, fd, later).value) == w.(issued := w.issued + 1, live := Insert(w.live, e));
  }

  lemma UnparkMove(s: State, r: Rid, pc: Pc, found: nat)
    requires r != MAIN && pc.Parked? && DoDeregister(s, r, pc, found).Ok?
    ensures TimerMove(WhereaboutsOf(s), WhereaboutsOf(DoDeregister(s, r, pc, found).value))
  {
    SetPc(s.pc, r, Accepting);
    SetPc(s.pc, r, Echoing(pc.fd, pc.chan));
    var w, w' := WhereaboutsOf(s), WhereaboutsOf(DoDeregister(s, r, pc, found).value);
    assert w' == w || (found < |w.live| && w' == w.(live := Erase(w.live, found),
          cancelled := w.cancelled + [w.live[found].timer]));
  }

  lemma ExpireMove(s: State)
    requires Todo(At(s.pc, MAIN)) == [] && EnterHandleRead(s).Ok?
    ensures TimerMove(WhereaboutsOf(s), WhereaboutsOf(EnterHandleRead(s).value))
  {
    var k := LowerBound(s.heap, s.clock);
    var w, w' := WhereaboutsOf(s), WhereaboutsOf(EnterHandleRead(s).value);
    assert s.heap[..k][0..] == s.heap[..k];
    assert w' == w.(live := w.live[k..], todo := w.live[..k]);
  }

  lemma HandleReadMove(s: State, a: Action)
    requires Roles(s.pc) && (a.FireTimer? || a.FinishTimers?) && Enabled(s, a) && Exec(s, a).Ok?
    ensures TimerMove(WhereaboutsOf(s), WhereaboutsOf(Exec(s, a).value))
  {
    var main := At(s.pc, MAIN);
    if a.FireTimer? {
      assert main.all[main.done..][1..] == main.all[main.done + 1..];
    } else {
      assert main.all[main.done..] == [];
    }
  }

  /** The steps that do not touch timers. */
  predicate LeavesTimers(a: Action) {
    a.Tick? || a.Spawn? || a.GoIdle? || a.TakeTask? || a.Echo? || a.Accepted? || a.Poll? || a.EndBatch?
  }

  lemma TimersUntouched(s: State, a: Action)
    requires Roles(s.pc) && Enabled(s, a) && Exec(s, a).Ok? && LeavesTimers(a)
    ensures var s' := Exec(s, a).value;
            && s'.heap == s.heap && s'.timers == s.timers && s'.fired == s.fired && s'.cancelled == s.cancelled
                 && s'.armed == s.armed
            && Roles(s'.pc) && (At(s'.pc, MAIN) == At(s.pc, MAIN)
                   || (!At(s.pc, MAIN).Expiring? && !At(s'.pc, MAIN).Expiring?))
  {
    var r, s' := Running(s.env.stack), Exec(s, a).value;
    if a.Spawn? {
      SetPc(s.pc, MAIN, At(s'.pc, MAIN));
      SetPc(s.pc[MAIN := At(s'.pc, MAIN)], At(s.pc, MAIN).next, At(s'.pc, At(s.pc, MAIN).next));
    } else {
      SetPc(s.pc, r, At(s'.pc, r));
    }
  }

  lemma StepMovesTimers(s: State, a: Action)
    requires Roles(s.pc) && Enabled(s, a) && Exec(s, a).Ok?
    ensures TimerMove(WhereaboutsOf(s), WhereaboutsOf(Exec(s, a).value))
  {
    var r := Running(s.env.stack);
    match a
    case Register(later) => ParkMove(s, r, At(s.pc, r).fd, later);
    case AcceptFails(later) => ParkMove(s, r, s.listenFd, later);
    case Deregister(found) => UnparkMove(s, r, At(s.pc, r), found);
    case Dispatch =>
      if s.batch[0] == TIMERFD_CHANNEL {
        ExpireMove(s.(batch := s.batch[1..]));
      }
    case FireTimer => HandleReadMove(s, a);
    case FinishTimers => HandleReadMove(s, a);
    case _ => TimersUntouched(s, a);
  }

  // Each step keeps the queue sound and covered

  lemma RolesStep(pc: Pcs, x: Rid, p: Pc)
    requires Roles(pc)
    requires if x == MAIN then MainPc(p) && !p.Spawning? && (p.Expiring? ==> p.done <= |p.all|) else !MainPc(p)
    ensures Roles(pc[x := p]) && (x != MAIN ==> At(pc[x := p], MAIN) == At(pc, MAIN))
  {
    SetPc(pc, x, p);
  }

  lemma InsertSound(heap: seq<Entry<TimerId>>, timers: seq<Timer>, r: Rid, when: int)
    requires SoundQueue(heap, timers) && 0 < when
    ensures SoundQueue(Insert(heap, Entry(when, |timers|)), timers + [Timer(r, when, false)])
  {
    InsertKeeps(heap, Entry(when, |timers|));
  }

  lemma ParkQueue(s: State, r: Rid, fd: int, later: int)
    requires QueueInv(s) && r != MAIN && Park(s, r, fd, later).Ok? && s.clock <= later
    ensures QueueInv(Park(s, r, fd, later).value)
  {
    var e: Entry<TimerId> := Entry(s.clock + TIMEOUT, |s.timers|);
    RolesStep(s.pc, r, Parked(fd, |s.chans|, |s.timers|));
    InsertSound(s.heap, s.timers, r, e.when);
    if !At(s.pc, MAIN).Expiring? {
      CoversAfterInsert(s.armed, s.heap, e, later);
    }
  }

  lemma UnparkQueue(s: State, r: Rid, pc: Pc, found: nat)
    requires QueueInv(s) && r != MAIN && pc.Parked? && DoDeregister(s, r, pc, found).Ok?
    ensures QueueInv(DoDeregister(s, r, pc, found).value)
  {
    RolesStep(s.pc, r, Accepting);
    RolesStep(s.pc, r, Echoing(pc.fd, pc.chan));
    if found < |s.heap| {
      EraseSound(s.armed, s.heap, s.timers, found);
    }
  }

  lemma EraseSound(tf: TimerFd, heap: seq<Entry<TimerId>>, timers: seq<Timer>, k: nat)
    requires SoundQueue(heap, timers) && k < |heap|
    ensures SoundQueue(Erase(heap, k), timers)
    ensures Covers(tf, heap) ==> Covers(tf, Erase(heap, k))
  {
    EraseKeeps(heap, k);
  }

  lemma ExpireQueueInv(s: State)
    requires QueueInv(s) && EnterHandleRead(s).Ok?
    ensures QueueInv(EnterHandleRead(s).value)
  {
    var k := LowerBound(s.heap, s.clock);
    RolesStep(s.pc, MAIN, Expiring(s.heap[..k], 0, s.clock));
    assert SoundQueue(s.heap[k..], s.timers) by {
      SplitAtNow(s.heap, s.clock);
    }
  }

  lemma HandleReadQueue(s: State, a: Action)
    requires QueueInv(s) && (a.FireTimer? || a.FinishTimers?) && Enabled(s, a) && Exec(s, a).Ok?
    ensures QueueInv(Exec(s, a).value)
  {
    var main := At(s.pc, MAIN);
    RolesStep(s.pc, MAIN, if a.FireTimer? then main.(done := main.done + 1) else Dispatching);
    if a.FinishTimers? && s.heap != [] {
      assert s.heap[0] in s.heap;
    }
  }

  lemma QueueStep(s: State, a: Action)
    requires QueueInv(s) && Enabled(s, a) && Exec(s, a).Ok?
    ensures QueueInv(Exec(s, a).value)
  {
    var r := Running(s.env.stack);
    match a
    case Register(later) => ParkQueue(s, r, At(s.pc, r).fd, later);
    case AcceptFails(later) => ParkQueue(s, r, s.listenFd, later);
    case Deregister(found) => UnparkQueue(s, r, At(s.pc, r), found);
    case Dispatch =>
      if s.batch[0] == TIMERFD_CHANNEL {
        ExpireQueueInv(s.(batch := s.batch[1..]));
      }
    case FireTimer => HandleReadQueue(s, a);
    case FinishTimers => HandleReadQueue(s, a);
    case _ => TimersUntouched(s, a);
  }

  // All runs

  lemma {:induction false} RunsKeepTimers(states: seq<State>, actions: seq<Action>, i: nat)
    requires IsRun(states, actions) && i < |states|
    ensures QueueInv(states[i]) && Accounted(WhereaboutsOf(states[i]))
  {
    if i == 0 {
    } else {
      RunsKeepTimers(states, actions, i - 1);
      assert Steps(states[i - 1], actions[i - 1], states[i]);
      QueueStep(states[i - 1], actions[i - 1]);
      StepMovesTimers(states[i - 1], actions[i - 1]);
      MovesBalance(WhereaboutsOf(states[i - 1]), WhereaboutsOf(states[i]));
    }
  }

  lemma {:induction false} IssuedOnce(n: nat, t: TimerId)
    ensures multiset(Issued(n))[t] == if t < n then 1 else 0
  {
    if n == 0 {
    } else {
      IssuedOnce(n - 1, t);
    }
  }

  /** Over any run, every timer that addTimer returned is in exactly one of the four places. */
  lemma EachTimerOnce(states: seq<State>, actions: seq<Action>, i: nat, t: TimerId)
    requires IsRun(states, actions) && i < |states|
    ensures var w := WhereaboutsOf(states[i]);
            multiset(Ids(w.live))[t] + multiset(Ids(w.todo))[t] + multiset(w.fired)[t] + multiset(w.cancelled)[t]
            == if t < w.issued then 1 else 0
  {
    RunsKeepTimers(states, actions, i);
    IssuedOnce(|states[i].timers|, t);
  }

  lemma OnceInSeq(s: seq<TimerId>, i: nat, j: nat)
    requires i < j < |s| && multiset(s)[s[i]] <= 1
    ensures s[i] != s[j]
  {
    assert s == s[..j] + [s[j]] + s[j + 1..];
    assert s[i] in s[..j];
    assert multiset(s) == multiset(s[..j]) + multiset{s[j]} + multiset(s[j + 1..]);
  }

  /** No timer is run twice, and no timer that was cancelled is ever run. */
  lemma FiresAtMostOnce(states: seq<State>, actions: seq<Action>, i: nat, j: nat, k: nat)
    requires IsRun(states, actions) && i < |states| && j < |states[i].fired|
    ensures k < j ==> states[i].fired[k] != states[i].fired[j]
    ensures states[i].fired[j] !in states[i].cancelled && states[i].fired[j] < |states[i].timers|
  {
    var t := states[i].fired[j];
    assert multiset(states[i].fired)[t] >= 1;
    EachTimerOnce(states, actions, i, t);
    if k < j {
      EachTimerOnce(states, actions, i, states[i].fired[k]);
      OnceInSeq(states[i].fired, k, j);
    }
    assert multiset(states[i].cancelled)[t] == 0;
  }

  // One pass of handleRead

  /** Main is inside one and the same handleRead from states[i] to states[j]. */
  ghost predicate SamePass(states: seq<State>, i: nat, j: nat)
    requires j < |states|
  {
    i <= j && forall k :: i <= k <= j ==> At(states[k].pc, MAIN).Expiring?
  }

  lemma PassStep(s: State, a: Action)
    requires Roles(s.pc) && Enabled(s, a) && Exec(s, a).Ok?
    requires At(s.pc, MAIN).Expiring? && At(Exec(s, a).value.pc, MAIN).Expiring?
    ensures var s' := Exec(s, a).value;
            var main, main' := At(s.pc, MAIN), At(s'.pc, MAIN);
            && main'.all == main.all && main'.now == main.now
            && if a.FireTimer? then main.done < |main.all| && main'.done == main.done + 1
                 && s'.fired == s.fired + [main.all[main.done].timer]
               else main'.done == main.done && s'.fired == s.fired
  {
    var r, s' := Running(s.env.stack), Exec(s, a).value;
    if LeavesTimers(a) {
      TimersUntouched(s, a);
    } else {
      SetPc(s.pc, r, At(s'.pc, r));
    }
  }

  lemma IdsSlice(all: seq<Entry<TimerId>>, i: nat, j: nat)
    requires i <= j < |all|
    ensures Ids(all[i..j + 1]) == Ids(all[i..j]) + [all[j].timer]
  {
    assert all[i..j + 1] == all[i..j] + [all[j]];
    IdsConcat(all[i..j], [all[j]]);
    assert Ids([all[j]]) == [all[j].timer];
  }

  /** From `s` to `s'` a pass has run the next expired timers, in order, and nothing else. */
  ghost predicate PassAdvances(s: State, s': State)
    requires At(s.pc, MAIN).Expiring? && At(s'.pc, MAIN).Expiring?
  {
    var m, m' := At(s.pc, MAIN), At(s'.pc, MAIN);
    && m'.all == m.all && m'.now == m.now && m.done <= m'.done <= |m.all|
    && s'.fired == s.fired + Ids(m.all[m.done..m'.done])
  }

  lemma PassAdvancesByStep(s0: State, s: State, a: Action)
    requires Roles(s.pc) && Enabled(s, a) && Exec(s, a).Ok?
    requires At(s0.pc, MAIN).Expiring? && At(s.pc, MAIN).Expiring? && At(Exec(s, a).value.pc, MAIN).Expiring?
    requires PassAdvances(s0, s)
    ensures PassAdvances(s0, Exec(s, a).value)
  {
    PassStep(s, a);
    if a.FireTimer? {
      IdsSlice(At(s0.pc, MAIN).all, At(s0.pc, MAIN).done, At(s.pc, MAIN).done);
    }
  }

  /** A pass runs the timers that getExpired took out, in order, and nothing else, whatever the
      resumed routines do to the queue. */
  lemma {:induction false} PassRunsTheExpired(states: seq<State>, actions: seq<Action>, i: nat, j: nat)
    requires IsRun(states, actions) && j < |states| && SamePass(states, i, j)
    ensures PassAdvances(states[i], states[j])
  {
    if i == j {
      RunsKeepTimers(states, actions, i);
    } else {
      PassRunsTheExpired(states, actions, i, j - 1);
      PassContinues(states, actions, i, j);
    }
  }

  lemma PassContinues(states: seq<State>, actions: seq<Action>, i: nat, j: nat)
    requires IsRun(states, actions) && i < j < |states| && SamePass(states, i, j)
    requires PassAdvances(states[i], states[j - 1])
    ensures PassAdvances(states[i], states[j])
  {
    assert QueueInv(states[j - 1]) by {
      RunsKeepTimers(states, actions, j - 1);
    }
    assert Steps(states[j - 1], actions[j - 1], states[j]);
    PassAdvancesByStep(states[i], states[j - 1], actions[j - 1]);
  }

  /** A timer that is added during a pass is not run in that pass. */
  lemma NewTimersWait(states: seq<State>, actions: seq<Action>, i: nat, j: nat, t: TimerId)
    requires IsRun(states, actions) && j < |states| && SamePass(states, i, j)
    requires |states[i].timers| <= t < |states[j].timers|
    ensures t !in states[j].fired
  {
    PassRunsTheExpired(states, actions, i, j);
    EachTimerOnce(states, actions, i, t);
    var m, m' := At(states[i].pc, MAIN), At(states[j].pc, MAIN);
    assert m.all[m.done..] == m.all[m.done..m'.done] + m.all[m'.done..];
    IdsConcat(m.all[m.done..m'.done], m.all[m'.done..]);
    assert multiset(states[i].fired)[t] == 0 && multiset(Ids(m.all[m.done..]))[t] == 0;
  }

  // Everybody whose deadline has passed is woken

  /** The timers of `ts` are still there, with their owners and deadlines. */
  ghost predicate Grown(ts: seq<Timer>, ts': seq<Timer>) {
    |ts| <= |ts'| && forall t :: 0 <= t < |ts| ==> ts'[t].owner == ts[t].owner && ts'[t].when == ts[t].when
  }

  /** No step changes whose a timer is, or when it is due. */
  lemma TimersStay(s: State, a: Action, s': State)
    requires Steps(s, a, s')
    ensures Grown(s.timers, s'.timers)
  {
    if a.Register? || a.AcceptFails? || a.FinishTimers? {
      TimersGrow(s, a, s');
    } else {
      SameTimers(s, a, s');
    }
  }

  lemma TimersGrow(s: State, a: Action, s': State)
    requires Steps(s, a, s') && (a.Register? || a.AcceptFails? || a.FinishTimers?)
    ensures Grown(s.timers, s'.timers)
  {
  }

  lemma SameTimers(s: State, a: Action, s': State)
    requires Steps(s, a, s') && !(a.Register? || a.AcceptFails? || a.FinishTimers?)
    ensures s'.timers == s.timers
  {
    if a.Deregister? || a.Echo? {
      SameTimersOutside(s, a, s');
    } else {
      SameTimersElsewhere(s, a, s');
    }
  }

  lemma SameTimersOutside(s: State, a: Action, s': State)
    requires Steps(s, a, s') && (a.Deregister? || a.Echo?)
    ensures s'.timers == s.timers
  {
  }

  lemma SameTimersElsewhere(s: State, a: Action, s': State)
    requires Steps(s, a, s') && !(a.Register? || a.AcceptFails? || a.FinishTimers? || a.Deregister? || a.Echo?)
    ensures s'.timers == s.timers
  {
  }

  lemma {:induction false} TimerStays(states: seq<State>, actions: seq<Action>, i: nat, j: nat, t: TimerId)
    requires IsRun(states, actions) && i <= j < |states| && t < |states[i].timers|
    ensures t < |states[j].timers| && states[j].timers[t].owner == states[i].timers[t].owner
    ensures states[j].timers[t].when == states[i].timers[t].when
  {
    if i == j {
    } else {
      TimerStays(states, actions, i, j - 1, t);
      TimersStay(states[j - 1], actions[j - 1], states[j]);
    }
  }

  /** The step from states[k] runs the expired timer at position `p`. */
  ghost predicate RunsAt(states: seq<State>, actions: seq<Action>, k: nat, p: nat)
    requires k < |actions| && k < |states|
  {
    actions[k].FireTimer? && At(states[k].pc, MAIN).Expiring? && At(states[k].pc, MAIN).done == p
  }

  lemma LastPassStep(states: seq<State>, actions: seq<Action>, j: nat)
    requires IsRun(states, actions) && 0 < j < |states|
    requires At(states[j - 1].pc, MAIN).Expiring? && At(states[j].pc, MAIN).Expiring?
    ensures At(states[j].pc, MAIN).done == At(states[j - 1].pc, MAIN).done + if actions[j - 1].FireTimer? then 1 else 0
  {
    RunsKeepTimers(states, actions, j - 1);
    assert Steps(states[j - 1], actions[j - 1], states[j]);
    PassStep(states[j - 1], actions[j - 1]);
  }

  /** A pass that has got past a position has run the timer there. */
  lemma {:induction false} PassRunsAt(states: seq<State>, actions: seq<Action>, i: nat, j: nat, p: nat) returns (k: nat)
    requires IsRun(states, actions) && j < |states| && SamePass(states, i, j)
    requires At(states[i].pc, MAIN).done <= p < At(states[j].pc, MAIN).done
    ensures i <= k < j && RunsAt(states, actions, k, p)
    decreases j
  {
    assert i < j;
    LastPassStep(states, actions, j);
    if p < At(states[j - 1].pc, MAIN).done {
      k := PassRunsAt(states, actions, i, j - 1, p);
    } else {
      k := j - 1;
    }
  }

  /** Whoever is inside addEpoll with a deadline before `now` when handleRead starts is among the
      expired. */
  lemma OverdueExpires(s: State, r: Rid) returns (p: nat)
    requires Inv(s) && Enabled(s, Dispatch) && s.batch[0] == TIMERFD_CHANNEL && Exec(s, Dispatch).Ok?
    requires 1 <= r && At(s.pc, r).Parked? && TimerOf(s.timers, At(s.pc, r).timer).when < s.clock
    ensures var main := At(Exec(s, Dispatch).value.pc, MAIN);
            main.Expiring? && main.done == 0 && p < |main.all| && main.all[p] == EntryOf(s.pc, s.timers, r)
    ensures At(s.pc, r).timer < |s.timers| && s.timers[At(s.pc, r).timer].owner == r
    ensures Exec(s, Dispatch).value.timers == s.timers
  {
    WhoRuns(s.routineNum, s.env, s.pc);
    assert TimerOfParked(s.env.stack, s.pc, s.heap, s.timers, r);
    DispatchTimerFdResult(s);
    var e := EntryOf(s.pc, s.timers, r);
    var i :| 0 <= i < |s.heap| && s.heap[i] == e;
    p := i;
    OverdueIsBefore(s.heap, s.clock, i);
  }

  lemma OverdueIsBefore(heap: seq<Entry<TimerId>>, now: int, i: nat)
    requires Sorted(heap) && i < |heap| && heap[i].when < now
    ensures i < LowerBound(heap, now) && heap[..LowerBound(heap, now)][i] == heap[i]
  {
  }

  lemma IdsAt(h: seq<Entry<TimerId>>, p: nat)
    requires p < |h|
    ensures h[p].timer in Ids(h)
  {
    assert h == h[..p] + ([h[p]] + h[p + 1..]);
    IdsConcat(h[..p], [h[p]] + h[p + 1..]);
    assert Ids([h[p]] + h[p + 1..])[0] == h[p].timer;
  }

  /** `r` is resumed by main in some step between states[i] and states[j]. */
  ghost predicate WokenBetween(states: seq<State>, actions: seq<Action>, i: nat, j: nat, r: Rid)
    requires j < |states| && |states| == |actions| + 1
  {
    exists k :: i < k < j && actions[k].FireTimer? && r !in states[k].env.stack && Running(states[k + 1].env.stack) == r
  }

  /** In states[i] main calls handleRead while `r` is inside addEpoll with a deadline that has
      passed, and in states[j] that pass is about to call reset. */
  ghost predicate OverdueInPass(states: seq<State>, actions: seq<Action>, i: nat, j: nat, r: Rid)
    requires |states| == |actions| + 1
  {
    && i < j < |states| && actions[i].Dispatch? && states[i].batch != [] && states[i].batch[0] == TIMERFD_CHANNEL
    && 1 <= r && At(states[i].pc, r).Parked?
    && TimerOf(states[i].timers, At(states[i].pc, r).timer).when < states[i].clock
    && SamePass(states, i + 1, j) && Enabled(states[j], FinishTimers)
  }

  lemma PassStarts(states: seq<State>, actions: seq<Action>, i: nat, j: nat, r: Rid) returns (p: nat)
    requires IsRun(states, actions) && NoWrongCancel(states, actions) && OverdueInPass(states, actions, i, j, r)
    ensures At(states[i + 1].pc, MAIN).Expiring? && At(states[i + 1].pc, MAIN).done == 0
    ensures var t, all := At(states[i].pc, r).timer, At(states[i + 1].pc, MAIN).all;
            && p < |all| && all[p].timer == t && t < |states[i + 1].timers| && states[i + 1].timers[t].owner == r
  {
    RunsKeepInv(states, actions, i);
    assert Steps(states[i], actions[i], states[i + 1]);
    p := OverdueExpires(states[i], r);
  }

  lemma OverdueFires(states: seq<State>, actions: seq<Action>, i: nat, j: nat, r: Rid)
    requires IsRun(states, actions) && NoWrongCancel(states, actions) && OverdueInPass(states, actions, i, j, r)
    ensures At(states[i].pc, r).timer in states[j].fired
  {
    var p := PassStarts(states, actions, i, j, r);
    PassRunsTheExpired(states, actions, i + 1, j);
    PassIsThrough(states, actions, j);
    var all := At(states[i + 1].pc, MAIN).all;
    assert all[0..|all|] == all;
    IdsAt(all, p);
  }

  lemma OverdueResumes(states: seq<State>, actions: seq<Action>, i: nat, j: nat, r: Rid)
    requires IsRun(states, actions) && NoWrongCancel(states, actions) && OverdueInPass(states, actions, i, j, r)
    ensures WokenBetween(states, actions, i, j, r)
  {
    var p := PassStarts(states, actions, i, j, r);
    PassIsThrough(states, actions, j);
    PassRunsTheExpired(states, actions, i + 1, j);
    var k := PassRunsAt(states, actions, i + 1, j, p);
    PassRunsTheExpired(states, actions, i + 1, k);
    TimerStays(states, actions, i + 1, k, At(states[i].pc, r).timer);
    FireResumesOwner(states, actions, k);
  }

  /** A pass wakes everyone who is overdue: the timer of such a routine has been run, and the
      routine has been resumed, when reset is called. */
  lemma OverdueAreWoken(states: seq<State>, actions: seq<Action>, i: nat, j: nat, r: Rid)
    requires IsRun(states, actions) && NoWrongCancel(states, actions) && OverdueInPass(states, actions, i, j, r)
    ensures At(states[i].pc, r).timer in states[j].fired
    ensures WokenBetween(states, actions, i, j, r)
  {
    OverdueFires(states, actions, i, j, r);
    OverdueResumes(states, actions, i, j, r);
  }

  lemma PassIsThrough(states: seq<State>, actions: seq<Action>, j: nat)
    requires IsRun(states, actions) && NoWrongCancel(states, actions) && j < |states|
             && Enabled(states[j], FinishTimers)
    ensures At(states[j].pc, MAIN).Expiring? && At(states[j].pc, MAIN).done >= |At(states[j].pc, MAIN).all|
  {
    RunsKeepInv(states, actions, j);
    WhoRuns(states[j].routineNum, states[j].env, states[j].pc);
  }

  lemma FireResumesOwner(states: seq<State>, actions: seq<Action>, k: nat)
    requires IsRun(states, actions) && NoWrongCancel(states, actions) && k < |actions| && actions[k].FireTimer?
    ensures At(states[k].pc, MAIN).Expiring? && At(states[k].pc, MAIN).done < |At(states[k].pc, MAIN).all|
    ensures var main := At(states[k].pc, MAIN);
            var r := TimerOf(states[k].timers, main.all[main.done].timer).owner;
            r !in states[k].env.stack && Running(states[k + 1].env.stack) == r
  {
    RunsKeepInv(states, actions, k);
    assert Steps(states[k], actions[k], states[k + 1]);
    NextTimer(states[k]);
    FireResult(states[k]);
  }

  // The timerfd

  /** Outside handleRead the timerfd is set for the earliest deadline, or for 100 microseconds
      after it was set; so once both have passed, it is readable. */
  lemma TimerFdCoversEarliest(states: seq<State>, actions: seq<Action>, i: nat)
    requires IsRun(states, actions) && i < |states| && !At(states[i].pc, MAIN).Expiring?
    ensures Covers(states[i].armed, states[i].heap)
    ensures var s := states[i];
            s.heap != [] && s.heap[0].when <= s.clock && s.armed.since + MIN_DELAY <= s.clock ==>
                Pending(s.armed, s.clock)
  {
    RunsKeepTimers(states, actions, i);
  }

  /** The timerfd changes in two ways only: an expiry is read, or it is set at the time of the step
      for the earliest deadline of the queue, but not sooner than 100 microseconds ahead. */
  ghost predicate TimerFdMove(tf: TimerFd, clock: int, tf': TimerFd, clock': int, heap': seq<Entry<TimerId>>) {
    || tf' == tf
    || (tf.armed.Some? && tf.armed.value <= clock && tf'.armed.None?)
    || (&& heap' != [] && tf'.since == clock' && tf'.armed.Some?
        && if clock' + 100 <= heap'[0].when then tf'.armed.value == heap'[0].when else tf'.armed.value == clock' + 100)
  }

  lemma InsertArms(tf: TimerFd, clock: int, h: seq<Entry<TimerId>>, e: Entry<TimerId>, later: int)
    requires Sorted(h)
    ensures TimerFdMove(tf, clock, if EarliestChanges(h, e.when) then Arm(later, e.when) else tf, later, Insert(h, e))
  {
    InsertKeeps(h, e);
  }

  lemma ParkSetsTimer(s: State, r: Rid, fd: int, later: int)
    requires Park(s, r, fd, later).Ok?
    ensures var s', e := Park(s, r, fd, later).value, Entry(s.clock + TIMEOUT, |s.timers|);
            && s'.heap == Insert(s.heap, e) && s'.clock == later
            && s'.armed == if EarliestChanges(s.heap, e.when) then Arm(later, e.when) else s.armed
  {
  }

  lemma ParkArms(s: State, r: Rid, fd: int, later: int)
    requires QueueInv(s) && Park(s, r, fd, later).Ok?
    ensures var s' := Park(s, r, fd, later).value; TimerFdMove(s.armed, s.clock, s'.armed, s'.clock, s'.heap)
  {
    ParkSetsTimer(s, r, fd, later);
    InsertArms(s.armed, s.clock, s.heap, Entry(s.clock + TIMEOUT, |s.timers|), later);
  }

  lemma HandleReadArms(s: State, a: Action)
    requires QueueInv(s) && (a.FireTimer? || a.FinishTimers?) && Enabled(s, a) && Exec(s, a).Ok?
    ensures var s' := Exec(s, a).value; TimerFdMove(s.armed, s.clock, s'.armed, s'.clock, s'.heap)
  {
    if a.FinishTimers? && s.heap != [] {
      assert s.heap[0] in s.heap;
    }
  }

  lemma TimerFdStep(s: State, a: Action)
    requires QueueInv(s) && Enabled(s, a) && Exec(s, a).Ok?
    ensures var s' := Exec(s, a).value; TimerFdMove(s.armed, s.clock, s'.armed, s'.clock, s'.heap)
  {
    var r := Running(s.env.stack);
    match a
    case Register(later) => ParkArms(s, r, At(s.pc, r).fd, later);
    case AcceptFails(later) => ParkArms(s, r, s.listenFd, later);
    case Deregister(_) =>
    case Dispatch =>
    case FireTimer => HandleReadArms(s, a);
    case FinishTimers => HandleReadArms(s, a);
    case _ => TimersUntouched(s, a);
  }

  /** In every run, whenever the timerfd is set, it is set for the earliest deadline: never sooner,
      unless that is less than 100 microseconds away. */
  lemma TimerFdIsSetRight(states: seq<State>, actions: seq<Action>, i: nat)
    requires IsRun(states, actions) && i < |actions|
    ensures var s, s' := states[i], states[i + 1]; TimerFdMove(s.armed, s.clock, s'.armed, s'.clock, s'.heap)
  {
    RunsKeepTimers(states, actions, i);
    assert Steps(states[i], actions[i], states[i + 1]);
    TimerFdStep(states[i], actions[i]);
  }

  /** handleRead consumes the expiry: while main is inside, the timerfd is readable again only when
      it has been set meanwhile. */
  lemma ReadConsumes(s: State, s': State)
    requires Steps(s, Dispatch, s') && !At(s.pc, MAIN).Expiring? && At(s'.pc, MAIN).Expiring?
    ensures s'.armed.armed.None? || s'.clock < s'.armed.armed.value
  {
  }

  // Timer objects

  /** The timers that the pass has run so far. */
  function RunInPass(main: Pc): seq<TimerId> {
    if main.Expiring? && main.done <= |main.all| then Ids(main.all[..main.done]) else []
  }

  /** The objects deleted are those of the timers that were run, but for the current pass. */
  ghost predicate Deletions(timers: seq<Timer>, fired: seq<TimerId>, recent: seq<TimerId>) {
    && (forall t :: t in fired ==> t < |timers|) && (forall t :: t in recent ==> t in fired)
    && (forall t :: 0 <= t < |timers| ==> (timers[t].freed <==> t in fired && t !in recent))
  }

  ghost predicate DeletionsOf(s: State) {
    Deletions(s.timers, s.fired, RunInPass(At(s.pc, MAIN)))
  }

  lemma FireDeletes(s: State)
    requires Roles(s.pc) && DeletionsOf(s) && Enabled(s, FireTimer) && Exec(s, FireTimer).Ok?
    ensures DeletionsOf(Exec(s, FireTimer).value)
  {
    var main := At(s.pc, MAIN);
    SetPc(s.pc, MAIN, main.(done := main.done + 1));
    IdsUpTo(main.all, main.done);
  }

  lemma IdsUpTo(all: seq<Entry<TimerId>>, n: nat)
    requires n < |all|
    ensures Ids(all[..n + 1]) == Ids(all[..n]) + [all[n].timer]
  {
    assert all[..n + 1] == all[..n] + [all[n]];
    IdsConcat(all[..n], [all[n]]);
    assert Ids([all[n]]) == [all[n].timer];
  }

  lemma {:induction false} IdsMembers(h: seq<Entry<TimerId>>, t: TimerId)
    ensures t in Ids(h) <==> InExpired(h, t)
  {
    if h == [] {
    } else {
      IdsMembers(h[1..], t);
      assert h == [h[0]] + h[1..];
    }
  }

  lemma FinishDeletes(s: State)
    requires Roles(s.pc) && DeletionsOf(s) && Enabled(s, FinishTimers) && Exec(s, FinishTimers).Ok?
    ensures DeletionsOf(Exec(s, FinishTimers).value)
  {
    var main, s' := At(s.pc, MAIN), Exec(s, FinishTimers).value;
    SetPc(s.pc, MAIN, Dispatching);
    assert main.all[..main.done] == main.all;
    forall t | 0 <= t < |s'.timers|
      ensures s'.timers[t].freed <==> t in s'.fired
    {
      IdsMembers(main.all, t);
    }
  }

  lemma ParkDeletes(s: State, r: Rid, fd: int, later: int)
    requires r != MAIN && DeletionsOf(s) && Park(s, r, fd, later).Ok?
    ensures DeletionsOf(Park(s, r, fd, later).value)
  {
    SetPc(s.pc, r, Parked(fd, |s.chans|, |s.timers|));
  }

  lemma UnparkDeletes(s: State, r: Rid, pc: Pc, found: nat)
    requires r != MAIN && pc.Parked? && DeletionsOf(s) && DoDeregister(s, r, pc, found).Ok?
    ensures DeletionsOf(DoDeregister(s, r, pc, found).value)
  {
    SetPc(s.pc, r, Accepting);
    SetPc(s.pc, r, Echoing(pc.fd, pc.chan));
  }

  lemma ExpireDeletes(s: State)
    requires !At(s.pc, MAIN).Expiring? && DeletionsOf(s) && EnterHandleRead(s).Ok?
    ensures DeletionsOf(EnterHandleRead(s).value)
  {
    var k := LowerBound(s.heap, s.clock);
    SetPc(s.pc, MAIN, Expiring(s.heap[..k], 0, s.clock));
  }

  lemma DeletionStep(s: State, a: Action)
    requires Roles(s.pc) && DeletionsOf(s) && Enabled(s, a) && Exec(s, a).Ok?
    ensures DeletionsOf(Exec(s, a).value)
  {
    var r := Running(s.env.stack);
    match a
    case Register(later) => ParkDeletes(s, r, At(s.pc, r).fd, later);
    case AcceptFails(later) => ParkDeletes(s, r, s.listenFd, later);
    case Deregister(found) => UnparkDeletes(s, r, At(s.pc, r), found);
    case Dispatch =>
      if s.batch[0] == TIMERFD_CHANNEL {
        ExpireDeletes(s.(batch := s.batch[1..]));
      }
    case FireTimer => FireDeletes(s);
    case FinishTimers => FinishDeletes(s);
    case _ => TimersUntouched(s, a);
  }

  lemma {:induction false} RunsKeepDeletions(states: seq<State>, actions: seq<Action>, i: nat)
    requires IsRun(states, actions) && i < |states|
    ensures DeletionsOf(states[i])
  {
    if i == 0 {
    } else {
      RunsKeepDeletions(states, actions, i - 1);
      RunsKeepTimers(states, actions, i - 1);
      assert Steps(states[i - 1], actions[i - 1], states[i]);
      DeletionStep(states[i - 1], actions[i - 1]);
    }
  }

  /** In every run, outside handleRead, the Timer objects deleted are exactly those that have been
      run: reset forgets none, and those that were cancelled are never deleted. */
  lemma DeletedIffRun(states: seq<State>, actions: seq<Action>, i: nat, t: TimerId)
    requires IsRun(states, actions) && i < |states| && !At(states[i].pc, MAIN).Expiring?
    requires t < |states[i].timers|
    ensures states[i].timers[t].freed <==> t in states[i].fired
    ensures t in states[i].cancelled ==> !states[i].timers[t].freed
  {
    RunsKeepDeletions(states, actions, i);
    if t in states[i].cancelled && t in states[i].fired {
      var j :| 0 <= j < |states[i].fired| && states[i].fired[j] == t;
      FiresAtMostOnce(states, actions, i, j, j);
    }
  }
}
