/** Why and when a routine that waits in addEpoll is woken, over all runs of the server. */
module WakeUps {
  import opened Wrappers
  import opened Routines
  import opened Timers
  import opened EpollSpec
  import opened Reactor
  import opened ReactorInvariant
  import opened ReactorSteps
  import opened Server
  import opened TimerAccounts

  // What does not change while a routine does not run

  /** A routine stays where it is while it does not run. */
  lemma PcStays(s: State, a: Action, s': State, r: Rid)
    requires Inv(s) && Steps(s, a, s') && r != Running(s.env.stack) && r != Running(s'.env.stack)
    ensures At(s'.pc, r) == At(s.pc, r)
  {
    WhoRuns(s.routineNum, s.env, s.pc);
    if a.Spawn? {
      var c := Candidate(s, a);
      CandidateResumed(s, a, c);
      SpawnMoves(s, s', c, r);
    } else {
      OnlyRunningMoves(s, a, s', r);
    }
  }

  lemma SpawnMoves(s: State, s': State, c: Rid, r: Rid)
    requires Steps(s, Spawn, s') && Running(s.env.stack) == MAIN && c == At(s.pc, MAIN).next
    requires Resume(s.env, c) == Ok(s'.env) && r != MAIN && r != Running(s'.env.stack)
    ensures At(s'.pc, r) == At(s.pc, r)
  {
  }

  lemma OnlyRunningMoves(s: State, a: Action, s': State, r: Rid)
    requires Steps(s, a, s') && !a.Spawn? && r != Running(s.env.stack)
    requires MainPc(At(s.pc, Running(s.env.stack))) <==> Running(s.env.stack) == MAIN
    ensures At(s'.pc, r) == At(s.pc, r)
  {
    if a.Poll? || a.Dispatch? || a.EndBatch? || a.FireTimer? || a.FinishTimers? {
      OnlyMainMoves(s, a, s', r);
    } else if a.Register? || a.AcceptFails? || a.Deregister? {
      OnlyParkingMoves(s, a, s', r);
    } else {
      match a
      case Tick(_) =>
      case GoIdle =>
      case TakeTask =>
      case Echo(_, _, _) =>
      case Accepted(_) =>
    }
  }

  lemma OnlyParkingMoves(s: State, a: Action, s': State, r: Rid)
    requires Steps(s, a, s') && r != Running(s.env.stack) && (a.Register? || a.AcceptFails? || a.Deregister?)
    ensures At(s'.pc, r) == At(s.pc, r)
  {
    match a
    case Register(_) =>
    case AcceptFails(_) =>
    case Deregister(_) =>
  }

  lemma OnlyMainMoves(s: State, a: Action, s': State, r: Rid)
    requires Steps(s, a, s') && r != MAIN && (a.Poll? || a.Dispatch? || a.EndBatch? || a.FireTimer? || a.FinishTimers?)
    ensures At(s'.pc, r) == At(s.pc, r)
  {
    match a
    case Poll(_) =>
    case Dispatch =>
    case EndBatch =>
    case FireTimer =>
    case FinishTimers =>
  }

  ghost predicate StaysPut(states: seq<State>, k: nat, r: Rid)
    requires k + 1 < |states|
  {
    At(states[k + 1].pc, r) == At(states[k].pc, r)
  }

  lemma PcStaysAt(states: seq<State>, actions: seq<Action>, k: nat, r: Rid)
    requires IsRun(states, actions) && NoWrongCancel(states, actions) && k < |actions|
    requires Running(states[k].env.stack) != r && Running(states[k + 1].env.stack) != r
    ensures StaysPut(states, k, r)
  {
    RunsKeepInv(states, actions, k);
    assert Steps(states[k], actions[k], states[k + 1]);
    PcStays(states[k], actions[k], states[k + 1], r);
  }

  lemma {:induction false} StaysPutThroughout(states: seq<State>, i: nat, j: nat, r: Rid)
    requires i <= j < |states| && forall k :: i <= k < j ==> StaysPut(states, k, r)
    ensures At(states[j].pc, r) == At(states[i].pc, r)
  {
    if i == j {
    } else {
      StaysPutThroughout(states, i, j - 1, r);
      assert StaysPut(states, j - 1, r);
    }
  }

  lemma PcStaysWhileAway(states: seq<State>, actions: seq<Action>, i: nat, j: nat, r: Rid)
    requires IsRun(states, actions) && NoWrongCancel(states, actions) && i <= j < |states|
    requires forall k :: i <= k <= j ==> Running(states[k].env.stack) != r
    ensures At(states[j].pc, r) == At(states[i].pc, r)
  {
    forall k | i <= k < j
      ensures StaysPut(states, k, r)
    {
      PcStaysAt(states, actions, k, r);
    }
    StaysPutThroughout(states, i, j, r);
  }

  // What a poll reports

  /** The poll reports the descriptor for which `r` waits in addEpoll. */
  ghost predicate Reports(s: State, a: Action, r: Rid) {
    a.Poll? && At(s.pc, r).Parked? && At(s.pc, r).fd in a.ready
  }

  /** The batch has the channel of `r`. */
  ghost predicate InBatch(s: State, r: Rid) {
    exists c :: c in s.batch && c != TIMERFD_CHANNEL && Chan(s, c).owner == r
  }

  lemma BatchOnlyReported(s: State, ready: seq<int>, s': State, r: Rid)
    requires Inv(s) && Steps(s, Poll(ready), s') && InBatch(s', r)
    ensures Reports(s, Poll(ready), r)
  {
    var c :| c in s'.batch && c != TIMERFD_CHANNEL && Chan(s', c).owner == r;
    var i :| 0 <= i < |s'.batch| && s'.batch[i] == c;
    var fd := ready[i];
    assert fd in s.epoll.channels && (fd != s.timerFd ==> ParkedOn(s.pc, s.chans, fd, s.epoll.channels[fd]));
    assert fd != s.timerFd ==> Registered(s.pc, s.epoll, s.chans, s.chans[s.epoll.channels[fd]].owner);
  }

  lemma ReportedInBatch(s: State, ready: seq<int>, s': State, r: Rid)
    requires Inv(s) && Steps(s, Poll(ready), s') && Reports(s, Poll(ready), r)
    ensures var c := At(s.pc, r).chan;
            c in s'.batch && c != TIMERFD_CHANNEL && Chan(s', c).owner == r && s'.chans == s.chans
  {
    var fd := At(s.pc, r).fd;
    assert RoutineState(s.routineNum, s.env.stack, s.pc, r);
    assert Registered(s.pc, s.epoll, s.chans, r);
    var i :| 0 <= i < |ready| && ready[i] == fd;
    assert s'.batch[i] == At(s.pc, r).chan;
  }

  /** The channels of a batch are those of exactly the routines whose descriptors were reported. */
  lemma BatchIsReported(s: State, ready: seq<int>, s': State, r: Rid)
    requires Inv(s) && Steps(s, Poll(ready), s')
    ensures InBatch(s', r) <==> Reports(s, Poll(ready), r)
  {
    if Reports(s, Poll(ready), r) {
      ReportedInBatch(s, ready, s', r);
    }
    if InBatch(s', r) {
      BatchOnlyReported(s, ready, s', r);
    }
  }

  // Everything that a poll reports is dispatched

  /** Main is between a poll and the end of its batch. */
  predicate Busy(pc: Pcs) {
    At(pc, MAIN).Dispatching? || At(pc, MAIN).Expiring?
  }

  lemma BusyStep(s: State, a: Action, s': State)
    requires Inv(s) && Steps(s, a, s') && Busy(s.pc) && !a.EndBatch?
    ensures Busy(s'.pc) && !a.Poll?
  {
    WhoRuns(s.routineNum, s.env, s.pc);
    if Running(s.env.stack) == MAIN {
      MainStaysBusy(s, a, s');
    } else {
      OnlyRunningMoves(s, a, s', MAIN);
    }
  }

  lemma MainStaysBusy(s: State, a: Action, s': State)
    requires Steps(s, a, s') && Busy(s.pc) && !a.EndBatch? && Running(s.env.stack) == MAIN
    ensures Busy(s'.pc) && !a.Poll?
  {
    match a
    case Tick(_) =>
    case Dispatch =>
    case FireTimer =>
    case FinishTimers =>
  }

  /** No step changes whose a channel is. */
  ghost predicate SameOwners(chans: seq<Channel>, chans': seq<Channel>) {
    |chans| <= |chans'| && forall c :: 0 <= c < |chans| ==> chans'[c].owner == chans[c].owner
  }

  lemma ChannelsStay(s: State, a: Action, s': State)
    requires Steps(s, a, s')
    ensures SameOwners(s.chans, s'.chans)
  {
    if a.Register? || a.AcceptFails? {
      ChannelsGrow(s, a, s');
    } else if a.Deregister? || a.Echo? {
      ChannelsChange(s, a, s');
    } else {
      SameChannels(s, a, s');
    }
  }

  lemma ChannelsGrow(s: State, a: Action, s': State)
    requires Steps(s, a, s') && (a.Register? || a.AcceptFails?)
    ensures SameOwners(s.chans, s'.chans)
  {
  }

  lemma ChannelsChange(s: State, a: Action, s': State)
    requires Steps(s, a, s') && (a.Deregister? || a.Echo?)
    ensures SameOwners(s.chans, s'.chans)
  {
  }

  lemma SameChannels(s: State, a: Action, s': State)
    requires Steps(s, a, s') && !(a.Register? || a.AcceptFails? || a.Deregister? || a.Echo?)
    ensures s'.chans == s.chans
  {
  }

  /** The channel `c` of `r` is still to be dispatched. */
  ghost predicate Pends(s: State, c: ChanId, r: Rid) {
    c in s.batch && c != TIMERFD_CHANNEL && c < |s.chans| && s.chans[c].owner == r
  }

  lemma PendingStep(s: State, a: Action, s': State, c: ChanId, r: Rid)
    requires Inv(s) && Steps(s, a, s') && Pends(s, c, r) && !a.Poll?
    ensures Pends(s', c, r) || (a.Dispatch? && Running(s'.env.stack) == r)
  {
    ChannelsStay(s, a, s');
    BatchStays(s, a);
    if a.Dispatch? && s.batch[0] == c {
      CandidateResumed(s, a, r);
    }
  }

  /** `r` runs in some state after states[i], up to states[j]. */
  ghost predicate RunsWithin(states: seq<State>, i: nat, j: nat, r: Rid)
    requires j < |states|
  {
    exists k :: i < k <= j && Running(states[k].env.stack) == r
  }

  /** The batch polled in step `i` is not through before states[j]. */
  ghost predicate SameBatch(actions: seq<Action>, i: nat, j: nat)
    requires j <= |actions|
  {
    forall k :: i < k < j ==> !actions[k].EndBatch?
  }

  lemma PollStarts(states: seq<State>, actions: seq<Action>, i: nat, r: Rid)
    requires IsRun(states, actions) && NoWrongCancel(states, actions) && i < |actions|
    requires Reports(states[i], actions[i], r)
    ensures Busy(states[i + 1].pc) && Pends(states[i + 1], At(states[i].pc, r).chan, r)
  {
    RunsKeepInv(states, actions, i);
    assert Steps(states[i], actions[i], states[i + 1]);
    ReportedInBatch(states[i], actions[i].ready, states[i + 1], r);
    assert Registered(states[i].pc, states[i].epoll, states[i].chans, r);
  }

  lemma BatchContinues(states: seq<State>, actions: seq<Action>, k: nat, c: ChanId, r: Rid)
    requires IsRun(states, actions) && NoWrongCancel(states, actions) && k < |actions|
    requires Busy(states[k].pc) && Pends(states[k], c, r) && !actions[k].EndBatch?
    ensures Busy(states[k + 1].pc) && (Pends(states[k + 1], c, r) || Running(states[k + 1].env.stack) == r)
  {
    RunsKeepInv(states, actions, k);
    assert Steps(states[k], actions[k], states[k + 1]);
    BusyStep(states[k], actions[k], states[k + 1]);
    PendingStep(states[k], actions[k], states[k + 1], c, r);
  }

  lemma {:induction false} PendsUntilWoken(states: seq<State>, actions: seq<Action>, i: nat, j: nat, r: Rid)
    requires IsRun(states, actions) && NoWrongCancel(states, actions) && i < j <= |actions| && SameBatch(actions, i, j)
    requires Reports(states[i], actions[i], r) && !RunsWithin(states, i, j, r)
    ensures Busy(states[j].pc) && Pends(states[j], At(states[i].pc, r).chan, r)
  {
    if j == i + 1 {
      PollStarts(states, actions, i, r);
    } else {
      PendsUntilWoken(states, actions, i, j - 1, r);
      BatchContinues(states, actions, j - 1, At(states[i].pc, r).chan, r);
    }
  }

  /** Whoever waits for a descriptor that a poll reports has run when main comes to the end of what
      that poll has reported. */
  lemma ReportedAreWoken(states: seq<State>, actions: seq<Action>, i: nat, j: nat, r: Rid)
    requires IsRun(states, actions) && NoWrongCancel(states, actions) && i < j < |actions|
    requires actions[i].Poll? && At(states[i].pc, r).Parked? && At(states[i].pc, r).fd in actions[i].ready
    requires actions[j].EndBatch? && forall k :: i < k < j ==> !actions[k].EndBatch?
    ensures exists k :: i < k <= j && Running(states[k].env.stack) == r
  {
    if !RunsWithin(states, i, j, r) {
      PendsUntilWoken(states, actions, i, j, r);
      EndsEmpty(states, actions, j);
    }
  }

  lemma EndsEmpty(states: seq<State>, actions: seq<Action>, j: nat)
    requires IsRun(states, actions) && j < |actions| && actions[j].EndBatch?
    ensures states[j].batch == []
  {
    assert Steps(states[j], actions[j], states[j + 1]);
  }

  /** How many entries main has dispatched in the steps from `i` up to `j`. */
  function Dispatches(actions: seq<Action>, i: nat, j: nat): nat
    requires i <= j <= |actions|
  {
    if i == j then 0 else Dispatches(actions, i, j - 1) + if actions[j - 1].Dispatch? then 1 else 0
  }

  lemma PollsBatch(states: seq<State>, actions: seq<Action>, i: nat)
    requires IsRun(states, actions) && i < |actions| && actions[i].Poll?
    ensures Busy(states[i + 1].pc) && |states[i + 1].batch| == |actions[i].ready|
  {
    assert Steps(states[i], actions[i], states[i + 1]);
  }

  lemma BatchShrinks(states: seq<State>, actions: seq<Action>, k: nat)
    requires IsRun(states, actions) && NoWrongCancel(states, actions) && k < |actions|
    requires Busy(states[k].pc) && !actions[k].EndBatch?
    ensures Busy(states[k + 1].pc)
    ensures states[k + 1].batch ==
            if actions[k].Dispatch? && states[k].batch != [] then states[k].batch[1..] else states[k].batch
    ensures actions[k].Dispatch? ==> states[k].batch != []
  {
    RunsKeepInv(states, actions, k);
    assert Steps(states[k], actions[k], states[k + 1]);
    BusyStep(states[k], actions[k], states[k + 1]);
    BatchStays(states[k], actions[k]);
  }

  lemma Suffix<T>(b: seq<T>, m: nat, q: seq<T>)
    requires m < |b| && q == b[m..]
    ensures q[0] == b[m] && q[1..] == b[m + 1..]
  {
  }

  lemma SuffixStep<T>(b: seq<T>, m: nat, q: seq<T>, q': seq<T>, pop: bool)
    requires m <= |b| && q == b[m..] && (pop ==> q != []) && q' == if pop then q[1..] else q
    ensures var m' := m + if pop then 1 else 0; m' <= |b| && q' == b[m'..]
  {
    if pop {
      Suffix(b, m, q);
    }
  }

  lemma {:induction false} BatchIsSuffix(states: seq<State>, actions: seq<Action>, i: nat, j: nat)
    requires IsRun(states, actions) && NoWrongCancel(states, actions) && i < j <= |actions| && SameBatch(actions, i, j)
    requires actions[i].Poll?
    ensures Busy(states[j].pc)
    ensures var m := Dispatches(actions, i + 1, j);
            m <= |states[i + 1].batch| == |actions[i].ready| && states[j].batch == states[i + 1].batch[m..]
  {
    if j == i + 1 {
      PollsBatch(states, actions, i);
    } else {
      BatchIsSuffix(states, actions, i, j - 1);
      BatchShrinks(states, actions, j - 1);
      SuffixStep(states[i + 1].batch, Dispatches(actions, i + 1, j - 1), states[j - 1].batch, states[j].batch,
                 actions[j - 1].Dispatch?);
    }
  }

  /** What the m-th entry of a batch is. */
  lemma PolledAt(states: seq<State>, actions: seq<Action>, i: nat, m: nat, r: Rid)
    requires IsRun(states, actions) && NoWrongCancel(states, actions) && i < |actions| && actions[i].Poll?
    requires m < |actions[i].ready| == |states[i + 1].batch|
    ensures actions[i].ready[m] == states[i].timerFd ==> states[i + 1].batch[m] == TIMERFD_CHANNEL
    ensures At(states[i].pc, r).Parked? && At(states[i].pc, r).fd == actions[i].ready[m] ==>
              states[i + 1].batch[m] == At(states[i].pc, r).chan && Pends(states[i + 1], At(states[i].pc, r).chan, r)
  {
    RunsKeepInv(states, actions, i);
    assert Steps(states[i], actions[i], states[i + 1]);
    var s := states[i];
    if At(s.pc, r).Parked? && At(s.pc, r).fd == actions[i].ready[m] {
      PollStarts(states, actions, i, r);
      assert Registered(s.pc, s.epoll, s.chans, r);
    }
  }

  lemma {:induction false} OwnersStay(states: seq<State>, actions: seq<Action>, i: nat, j: nat, c: ChanId)
    requires IsRun(states, actions) && i <= j < |states| && c < |states[i].chans|
    ensures c < |states[j].chans| && states[j].chans[c].owner == states[i].chans[c].owner
  {
    if i == j {
    } else {
      OwnersStay(states, actions, i, j - 1, c);
      ChannelsStay(states[j - 1], actions[j - 1], states[j]);
    }
  }

  lemma Dispatched(s: State, s': State)
    requires Steps(s, Dispatch, s')
    ensures s.batch[0] == TIMERFD_CHANNEL ==> At(s'.pc, MAIN).Expiring? && At(s'.pc, MAIN).now == s.clock
    ensures s.batch[0] != TIMERFD_CHANNEL ==> Running(s'.env.stack) == Chan(s, s.batch[0]).owner
  {
    if s.batch[0] != TIMERFD_CHANNEL {
      CandidateResumed(s, Dispatch, Chan(s, s.batch[0]).owner);
    }
  }

  /** Main dispatches what a poll reports in the order in which it is reported: with the m-th
      dispatch after the poll it calls handleRead, if the m-th descriptor is the timerfd, and
      otherwise resumes the routine that waited for that descriptor. */
  lemma DispatchedInOrder(states: seq<State>, actions: seq<Action>, i: nat, k: nat, r: Rid)
    requires IsRun(states, actions) && NoWrongCancel(states, actions) && i < k < |actions|
    requires actions[i].Poll? && actions[k].Dispatch? && SameBatch(actions, i, k)
    ensures Dispatches(actions, i + 1, k) < |actions[i].ready|
    ensures var fd := actions[i].ready[Dispatches(actions, i + 1, k)];
            && (fd == states[i].timerFd ==>
                  At(states[k + 1].pc, MAIN).Expiring? && At(states[k + 1].pc, MAIN).now == states[k].clock)
            && (At(states[i].pc, r).Parked? && At(states[i].pc, r).fd == fd ==> Running(states[k + 1].env.stack) == r)
  {
    var m := Dispatches(actions, i + 1, k);
    BatchIsSuffix(states, actions, i, k);
    BatchShrinks(states, actions, k);
    Suffix(states[i + 1].batch, m, states[k].batch);
    PolledAt(states, actions, i, m, r);
    assert Steps(states[k], actions[k], states[k + 1]);
    Dispatched(states[k], states[k + 1]);
    if At(states[i].pc, r).Parked? && At(states[i].pc, r).fd == actions[i].ready[m] {
      OwnersStay(states, actions, i + 1, k, At(states[i].pc, r).chan);
    }
  }

  /** And it dispatches as many entries as were reported before it polls again. */
  lemma AllDispatched(states: seq<State>, actions: seq<Action>, i: nat, j: nat)
    requires IsRun(states, actions) && NoWrongCancel(states, actions) && i < j < |actions|
    requires actions[i].Poll? && actions[j].EndBatch? && SameBatch(actions, i, j)
    ensures Dispatches(actions, i + 1, j) == |actions[i].ready|
  {
    BatchIsSuffix(states, actions, i, j);
    EndsEmpty(states, actions, j);
  }

  // Three seconds

  /** In states[i] `r` calls addEpoll, and up to states[j] it waits there. */
  ghost predicate WaitsSince(states: seq<State>, actions: seq<Action>, i: nat, j: nat, r: Rid)
    requires |states| == |actions| + 1
  {
    && i < j < |states| && (actions[i].Register? || actions[i].AcceptFails?) && Running(states[i].env.stack) == r
    && forall k :: i < k <= j ==> Running(states[k].env.stack) != r
  }

  lemma ParkSets(s: State, a: Action, s': State)
    requires Steps(s, a, s') && (a.Register? || a.AcceptFails?)
    ensures var p := At(s'.pc, Running(s.env.stack));
            && p.Parked? && p.chan == |s.chans| && p.timer == |s.timers| < |s'.timers|
            && s'.timers[p.timer].when == s.clock + 3_000_000 && s'.batch == s.batch
  {
  }

  /** All the while its timer is due three seconds after the call. */
  lemma WaitHasDeadline(states: seq<State>, actions: seq<Action>, i: nat, j: nat, r: Rid)
    requires IsRun(states, actions) && NoWrongCancel(states, actions) && WaitsSince(states, actions, i, j, r)
    ensures At(states[j].pc, r) == At(states[i + 1].pc, r) && At(states[j].pc, r).Parked?
    ensures TimerOf(states[j].timers, At(states[j].pc, r).timer).when == states[i].clock + 3_000_000
  {
    assert Steps(states[i], actions[i], states[i + 1]);
    ParkSets(states[i], actions[i], states[i + 1]);
    PcStaysWhileAway(states, actions, i + 1, j, r);
    TimerStays(states, actions, i + 1, j, At(states[i + 1].pc, r).timer);
  }

  /** A timer that runs is due: it is that of the routine that it resumes. */
  lemma FiresWhenDue(states: seq<State>, actions: seq<Action>, k: nat, r: Rid)
    requires IsRun(states, actions) && NoWrongCancel(states, actions) && k < |actions|
    requires actions[k].FireTimer? && Running(states[k + 1].env.stack) == r
    ensures At(states[k].pc, r).Parked? && TimerOf(states[k].timers, At(states[k].pc, r).timer).when < states[k].clock
  {
    FireResumesOwner(states, actions, k);
    RunsKeepInv(states, actions, k);
    NextTimer(states[k]);
  }

  /** No timer wakes a routine before it has waited for three seconds. */
  lemma NotBeforeThreeSeconds(states: seq<State>, actions: seq<Action>, i: nat, k: nat, r: Rid)
    requires IsRun(states, actions) && NoWrongCancel(states, actions) && k < |actions|
    requires WaitsSince(states, actions, i, k, r) && actions[k].FireTimer? && Running(states[k + 1].env.stack) == r
    ensures states[k].clock > states[i].clock + 3_000_000
  {
    WaitHasDeadline(states, actions, i, k, r);
    FiresWhenDue(states, actions, k, r);
  }

  /** handleRead, called after that time, wakes the routine before it calls reset. */
  lemma AfterThreeSeconds(states: seq<State>, actions: seq<Action>, i: nat, j: nat, k: nat, r: Rid)
    requires IsRun(states, actions) && NoWrongCancel(states, actions) && WaitsSince(states, actions, i, j, r)
    requires states[j].clock > states[i].clock + 3_000_000
    requires j < k < |states| && actions[j].Dispatch? && states[j].batch != [] && states[j].batch[0] == TIMERFD_CHANNEL
    requires SamePass(states, j + 1, k) && Enabled(states[k], FinishTimers)
    ensures WokenBetween(states, actions, j, k, r)
  {
    WaitHasDeadline(states, actions, i, j, r);
    NotMain(states, actions, i, r);
    OverdueAreWoken(states, actions, j, k, r);
  }

  lemma NotMain(states: seq<State>, actions: seq<Action>, i: nat, r: Rid)
    requires IsRun(states, actions) && NoWrongCancel(states, actions) && i < |actions|
    requires (actions[i].Register? || actions[i].AcceptFails?) && Running(states[i].env.stack) == r
    ensures 1 <= r
  {
    RunsKeepInv(states, actions, i);
    assert Steps(states[i], actions[i], states[i + 1]);
    WhoRuns(states[i].routineNum, states[i].env, states[i].pc);
  }

  // Nobody is woken for no reason

  lemma ParkedOffStack(s: State, r: Rid)
    requires Inv(s) && At(s.pc, r).Parked? && r != Running(s.env.stack)
    ensures r !in s.env.stack
  {
    assert RoutineState(s.routineNum, s.env.stack, s.pc, r) && RoutineState(s.routineNum, s.env.stack, s.pc, MAIN);
  }

  /** Only the dispatch of its channel, or its timer, resumes a routine that waits in addEpoll. */
  lemma WhoWakes(s: State, a: Action, s': State, r: Rid)
    requires Inv(s) && Steps(s, a, s') && At(s.pc, r).Parked?
    requires r != Running(s.env.stack) && r == Running(s'.env.stack)
    ensures a.FireTimer? || (a.Dispatch? && s.batch[0] == At(s.pc, r).chan && Pends(s, At(s.pc, r).chan, r))
  {
    ParkedOffStack(s, r);
    if a.Spawn? || a.Accepted? || a.Dispatch? || a.FireTimer? {
      ResumesWaiting(s, a, s', r);
    } else if a.GoIdle? || a.Register? || a.AcceptFails? {
      YieldStep(s, a);
      YieldsToStack(s.env, s'.env);
    } else {
      SameRoutines(s, a);
    }
  }

  lemma ResumesWaiting(s: State, a: Action, s': State, r: Rid)
    requires Inv(s) && Steps(s, a, s') && (a.Spawn? || a.Accepted? || a.Dispatch? || a.FireTimer?)
    requires At(s.pc, r).Parked? && r != Running(s.env.stack) && r == Running(s'.env.stack)
    ensures a.FireTimer? || (a.Dispatch? && s.batch[0] == At(s.pc, r).chan && Pends(s, At(s.pc, r).chan, r))
  {
    if a.Dispatch? {
      DispatchWakes(s, s', r);
    } else if !a.FireTimer? {
      var q := Candidate(s, a);
      CandidateResumed(s, a, q);
      NotWaiting(s, a, q);
    }
  }

  lemma DispatchWakes(s: State, s': State, r: Rid)
    requires Inv(s) && Steps(s, Dispatch, s') && At(s.pc, r).Parked?
    requires r != Running(s.env.stack) && r == Running(s'.env.stack)
    ensures s.batch[0] == At(s.pc, r).chan && Pends(s, At(s.pc, r).chan, r)
  {
    LiveEntry(s);
    CandidateResumed(s, Dispatch, Chan(s, s.batch[0]).owner);
  }

  lemma YieldsToStack(e: Env, e': Env)
    requires |e.stack| > 1 && Yield(e) == Ok(e')
    ensures Running(e'.stack) in e.stack
  {
  }

  /** A new routine, or an idle worker. */
  lemma NotWaiting(s: State, a: Action, q: Rid)
    requires Inv(s) && Enabled(s, a) && IsCandidate(s, a, q) && (a.Spawn? || (a.Accepted? && s.idle != []))
    ensures !At(s.pc, q).Parked?
  {
    WhoRuns(s.routineNum, s.env, s.pc);
    assert RoutineState(s.routineNum, s.env.stack, s.pc, q);
    assert a.Accepted? ==> q in s.idle && Idle(s.routineNum, s.env.stack, s.pc, q);
  }

  /** In states[k] `r` waits since step `i`, with the channel `c`, which is in the batch. */
  ghost predicate WaitsInBatch(states: seq<State>, actions: seq<Action>, i: nat, k: nat, r: Rid, c: ChanId)
    requires |states| == |actions| + 1
  {
    WaitsSince(states, actions, i, k, r) && At(states[i + 1].pc, r).Parked? && At(states[i + 1].pc, r).chan == c
    && c in states[k].batch
  }

  lemma WaitedBefore(states: seq<State>, actions: seq<Action>, i: nat, k: nat, r: Rid)
    requires |states| == |actions| + 1 && WaitsSince(states, actions, i, k, r) && k > i + 1
    ensures WaitsSince(states, actions, i, k - 1, r)
  {
  }

  /** The channel is new: it cannot be in a batch polled before. */
  lemma NotAtOnce(states: seq<State>, actions: seq<Action>, i: nat, k: nat, r: Rid, c: ChanId)
    requires IsRun(states, actions) && NoWrongCancel(states, actions) && WaitsInBatch(states, actions, i, k, r, c)
    ensures k > i + 1
  {
    if k == i + 1 {
      NotInOldBatch(states, actions, i, r);
    }
  }

  /** One step back, the poll has just reported it, or it was in the batch already. */
  lemma PendedEarlier(states: seq<State>, actions: seq<Action>, i: nat, k: nat, r: Rid, c: ChanId)
    requires IsRun(states, actions) && NoWrongCancel(states, actions) && WaitsInBatch(states, actions, i, k + 1, r, c)
    requires WaitsSince(states, actions, i, k, r)
    ensures actions[k].Poll? ==> Reports(states[k], actions[k], r)
    ensures !actions[k].Poll? ==> WaitsInBatch(states, actions, i, k, r, c) && !actions[k].EndBatch?
  {
    NotMain(states, actions, i, r);
    WaitHasDeadline(states, actions, i, k, r);
    if actions[k].Poll? {
      PolledThen(states, actions, k, r);
    } else {
      PendedBefore(states, actions, k, c);
    }
  }

  /** A waiting routine's channel that is in the batch has been reported since the last EndBatch. */
  lemma {:induction false} PendingWasReported(states: seq<State>, actions: seq<Action>, i: nat, k: nat, r: Rid,
                                              c: ChanId) returns (p: nat)
    requires IsRun(states, actions) && NoWrongCancel(states, actions) && WaitsInBatch(states, actions, i, k, r, c)
    ensures i < p < k && Reports(states[p], actions[p], r) && SameBatch(actions, p, k)
    decreases k
  {
    NotAtOnce(states, actions, i, k, r, c);
    var n := k - 1;
    WaitedBefore(states, actions, i, k, r);
    PendedEarlier(states, actions, i, n, r, c);
    if actions[n].Poll? {
      p := n;
    } else {
      p := PendingWasReported(states, actions, i, n, r, c);
    }
  }

  lemma NotInOldBatch(states: seq<State>, actions: seq<Action>, i: nat, r: Rid)
    requires IsRun(states, actions) && NoWrongCancel(states, actions) && i < |actions|
    requires (actions[i].Register? || actions[i].AcceptFails?) && Running(states[i].env.stack) == r
    ensures At(states[i + 1].pc, r).Parked? && At(states[i + 1].pc, r).chan !in states[i + 1].batch
  {
    RunsKeepInv(states, actions, i);
    assert Steps(states[i], actions[i], states[i + 1]);
    ParkSets(states[i], actions[i], states[i + 1]);
    var s := states[i];
    assert |s.chans| in s.batch ==> BatchEntry(s.env.stack, s.pc, s.chans, s.overtaken, |s.chans|);
  }

  lemma PolledThen(states: seq<State>, actions: seq<Action>, p: nat, r: Rid)
    requires IsRun(states, actions) && NoWrongCancel(states, actions) && p < |actions| && actions[p].Poll?
    requires 1 <= r && At(states[p].pc, r).Parked? && At(states[p].pc, r).chan in states[p + 1].batch
    ensures Reports(states[p], actions[p], r)
  {
    RunsKeepInv(states, actions, p);
    assert Steps(states[p], actions[p], states[p + 1]);
    assert Registered(states[p].pc, states[p].epoll, states[p].chans, r);
    assert InBatch(states[p + 1], r);
    BatchOnlyReported(states[p], actions[p].ready, states[p + 1], r);
  }

  lemma PendedBefore(states: seq<State>, actions: seq<Action>, k: nat, c: ChanId)
    requires IsRun(states, actions) && k < |actions| && !actions[k].Poll? && c in states[k + 1].batch
    ensures c in states[k].batch && !actions[k].EndBatch?
  {
    assert Steps(states[k], actions[k], states[k + 1]);
    BatchStays(states[k], actions[k]);
  }

  /** A routine that waits in addEpoll is resumed only when its descriptor has been reported, since
      it waits and in the batch that main is dispatching, or when its three seconds are over. */
  lemma WokenForAReason(states: seq<State>, actions: seq<Action>, i: nat, k: nat, r: Rid)
    requires IsRun(states, actions) && NoWrongCancel(states, actions) && k < |actions|
    requires WaitsSince(states, actions, i, k, r) && Running(states[k + 1].env.stack) == r
    ensures || (actions[k].FireTimer? && states[k].clock > states[i].clock + 3_000_000)
            || (&& actions[k].Dispatch?
                && exists p :: i < p < k && Reports(states[p], actions[p], r) && SameBatch(actions, p, k))
  {
    WaitHasDeadline(states, actions, i, k, r);
    NotMain(states, actions, i, r);
    RunsKeepInv(states, actions, k);
    assert Steps(states[k], actions[k], states[k + 1]);
    WhoWakes(states[k], actions[k], states[k + 1], r);
    if actions[k].FireTimer? {
      NotBeforeThreeSeconds(states, actions, i, k, r);
    } else {
      var p := PendingWasReported(states, actions, i, k, r, At(states[k].pc, r).chan);
    }
  }
}
