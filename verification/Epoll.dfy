/** `Epoll` and `Channel` as objects: `updateChannel` and `removeChannel` keep the interest set of the
    kernel a mirror of the channels. */
module Epoll {
  import opened Wrappers
  import opened EpollSpec
  import opened Routines
  import R = RoutineEnv

  // On values: any sequence of calls, on any number of channels

  datatype Chan = Chan(fd: int, mask: Mask, index: Index)

  datatype Poller = Poller(view: View<nat>, chans: seq<Chan>)

  datatype Call =
    | UpdateCall(c: nat, mask: Mask) // events_ is changed, then updateChannel
    | RemoveCall(c: nat)

  /** kNew: neither mapped nor with the kernel; kDeleted: mapped, but not with the kernel; kAdded:
      mapped, and with the kernel under its mask. */
  ghost predicate Mirrored<C>(v: View<C>, c: C, fd: int, mask: Mask, index: Index) {
    match index
    case New => (fd in v.channels ==> v.channels[fd] != c) && (fd in v.kernel ==> v.kernel[fd].ptr != c)
    case Added => fd in v.channels && v.channels[fd] == c && fd in v.kernel && v.kernel[fd] == Interest(mask, c)
    case Deleted => fd in v.channels && v.channels[fd] == c && fd !in v.kernel
  }

  ghost predicate Mirror(p: Poller) {
    && (forall c: nat :: c < |p.chans| ==> Mirrored(p.view, c, p.chans[c].fd, p.chans[c].mask, p.chans[c].index))
    && (forall fd :: fd in p.view.channels ==> p.view.channels[fd] < |p.chans| && p.chans[p.view.channels[fd]].fd == fd)
    && p.view.kernel.Keys <= p.view.channels.Keys
  }

  function Exec(p: Poller, call: Call): (o: Outcome<Poller>)
    requires call.c < |p.chans|
    ensures o.Ok? ==> |o.value.chans| == |p.chans|
  {
    var c, x := call.c, p.chans[call.c];
    match call
    case UpdateCall(_, mask) =>
      var (view, index) :- Update(p.view, x.fd, c, x.index, mask);
      Ok(Poller(view, p.chans[c := x.(mask := mask, index := index)]))
    case RemoveCall(_) =>
      var view :- Remove(p.view, x.fd, c, x.index);
      Ok(Poller(view, p.chans[c := x.(index := New)]))
  }

  /** The epoll_ctl operation that a call issues, if any. */
  function Issued(p: Poller, call: Call): Option<Op>
    requires call.c < |p.chans|
  {
    var x := p.chans[call.c];
    if call.UpdateCall? then Some(UpdateOp(x.index, call.mask))
    else if x.index.Added? then Some(CtlDel) else None
  }

  /** The asserts fail exactly for a second channel on a mapped descriptor and for the removal of
      a channel that is not mapped. Otherwise epoll_ctl accepts the operation, and the mirror is
      kept. */
  lemma CallKeepsMirror(p: Poller, call: Call)
    requires Mirror(p) && call.c < |p.chans|
    ensures var x := p.chans[call.c];
            Exec(p, call).Fault? <==> x.index.New? && (call.RemoveCall? || x.fd in p.view.channels)
    ensures Exec(p, call).Ok? ==>
              && Mirror(Exec(p, call).value)
              && (Issued(p, call).Some? ==> Accepted(p.view.kernel, Issued(p, call).value, p.chans[call.c].fd))
  {
    var c, x := call.c, p.chans[call.c];
    assert Mirrored(p.view, c, x.fd, x.mask, x.index);
    if Exec(p, call).Ok? {
      var p' := Exec(p, call).value;
      forall d: nat | d < |p'.chans| && d != c
        ensures Mirrored(p'.view, d, p'.chans[d].fd, p'.chans[d].mask, p'.chans[d].index)
      {
        assert p'.chans[d] == p.chans[d];
        assert Mirrored(p.view, d, p.chans[d].fd, p.chans[d].mask, p.chans[d].index);
        assert p.chans[d].fd in p.view.kernel ==> p.chans[d].fd in p.view.channels;
      }
    }
  }

  predicate InRange(calls: seq<Call>, n: nat) {
    forall i :: 0 <= i < |calls| ==> calls[i].c < n
  }

  function Run(p: Poller, calls: seq<Call>): Outcome<Poller>
    requires InRange(calls, |p.chans|)
    decreases calls
  {
    if calls == [] then Ok(p) else
    var p1 :- Exec(p, calls[0]);
    Run(p1, calls[1..])
  }

  /** After any sequence of calls whose asserts hold. */
  lemma {:induction false} RunsKeepMirror(p: Poller, calls: seq<Call>)
    requires Mirror(p) && InRange(calls, |p.chans|)
    ensures Run(p, calls).Ok? ==> Mirror(Run(p, calls).value)
    decreases calls
  {
    if calls == [] {
    } else {
      CallKeepsMirror(p, calls[0]);
      if Exec(p, calls[0]).Ok? {
        RunsKeepMirror(Exec(p, calls[0]).value, calls[1..]);
      }
    }
  }

  // On objects

  class Channel {
    const fd: int
    const routine: R.Routine // channelRoutine_
    var events: Mask
    var revents: Mask // set by the poll
    var index: Index

    constructor (fd: int, routine: R.Routine)
      ensures this.fd == fd && this.routine == routine && events == NONE_EVENT && index == New
    {
      this.fd, this.routine := fd, routine;
      events, index := NONE_EVENT, New;
    }

    /** handleFun: the event resumes the routine that was running when the channel was made. */
    method HandleFun(env: R.RoutineEnv)
      requires env.Valid() && routine in env.all && Resume(env.env, routine.id).Ok?
      modifies env, env.callStack, routine`start
      ensures env.Valid() && env.all == old(env.all) && Ok(env.env) == Resume(old(env.env), routine.id)
      ensures env.callStackSize > 0 && env.callStack[env.callStackSize - 1] == routine
    {
      env.Resume(routine);
    }

    method EnableReading(ep: Epoll)
      requires ep.Valid() && this in ep.all && (index.New? ==> fd !in ep.channels)
      modifies ep`channels, ep`kernel, this`events, this`index
      ensures ep.Valid() && events == old(events) | 3 // POLLIN | POLLPRI
      ensures Ok((ep.Maps(), index)) == Update(old(ep.Maps()), fd, this, old(index), events)
    {
      ghost var mask := events;
      events := events | READ_EVENT;
      ep.UpdateChannel(this, mask);
    }

    method EnableWriting(ep: Epoll)
      requires ep.Valid() && this in ep.all && (index.New? ==> fd !in ep.channels)
      modifies ep`channels, ep`kernel, this`events, this`index
      ensures ep.Valid() && events == old(events) | 4 // POLLOUT
      ensures Ok((ep.Maps(), index)) == Update(old(ep.Maps()), fd, this, old(index), events)
    {
      ghost var mask := events;
      events := events | WRITE_EVENT;
      ep.UpdateChannel(this, mask);
    }

    /** No events: a channel that the kernel had leaves it, and stays mapped; any other one is
        added with an empty mask. */
    method DisableAll(ep: Epoll)
      requires ep.Valid() && this in ep.all && (index.New? ==> fd !in ep.channels)
      modifies ep`channels, ep`kernel, this`events, this`index
      ensures ep.Valid() && events == NONE_EVENT
      ensures Ok((ep.Maps(), index)) == Update(old(ep.Maps()), fd, this, old(index), events)
      ensures old(index).Added? ==>
                index.Deleted? && ep.channels == old(ep.channels) && ep.kernel == old(ep.kernel) - {fd}
      ensures !old(index).Added? ==>
                index.Added? && ep.channels == old(ep.channels)[fd := this]
                && ep.kernel == old(ep.kernel)[fd := Interest(NONE_EVENT, this)]
    {
      ghost var mask := events;
      events := NONE_EVENT;
      ep.UpdateChannel(this, mask);
    }
  }

  class Epoll {
    var channels: map<int, Channel>
    var kernel: map<int, Interest<Channel>>
    ghost var all: set<Channel> // the channels of this Epoll

    ghost function Maps(): View<Channel>
      reads this
    {
      View(channels, kernel)
    }

    /** The mirror, but that the channel `x` had the events `mask` at its last update. */
    ghost predicate ValidBut(x: Channel, mask: Mask)
      reads this, all
    {
      && (forall c :: c in all ==> Mirrored(Maps(), c, c.fd, if c == x then mask else c.events, c.index))
      && (forall fd :: fd in channels ==> channels[fd] in all && channels[fd].fd == fd)
      && kernel.Keys <= channels.Keys
    }

    ghost predicate Valid()
      reads this, all
    {
      && (forall c :: c in all ==> Mirrored(Maps(), c, c.fd, c.events, c.index))
      && (forall fd :: fd in channels ==> channels[fd] in all && channels[fd].fd == fd)
      && kernel.Keys <= channels.Keys
    }

    constructor ()
      ensures Valid() && Maps() == View(map[], map[]) && all == {}
    {
      channels, kernel, all := map[], map[], {};
    }

    /** A channel remembers the routine that constructs it. */
    method NewChannel(fd: int, env: R.RoutineEnv) returns (c: Channel)
      requires Valid() && env.Valid() && env.env.stack != []
      modifies this`all
      ensures Valid() && fresh(c) && c.fd == fd && c.events == NONE_EVENT && c.index.New? && all == old(all) + {c}
      ensures c.routine in env.all && c.routine.id == Top(env.env)
    {
      var routine := env.CurrentRoutine();
      c := new Channel(fd, routine);
      all := all + {c};
    }

    /** epoll_ctl, only ever called so that the kernel accepts it. */
    method Control(op: Op, c: Channel)
      requires Accepted(kernel, op, c.fd)
      modifies this`kernel
      ensures kernel == Ctl(old(kernel), op, c.fd, Interest(c.events, c))
    {
      if op.CtlDel? {
        kernel := kernel - {c.fd};
      } else {
        kernel := kernel[c.fd := Interest(c.events, c)];
      }
    }

    method UpdateChannel(c: Channel, ghost mask: Mask)
      requires ValidBut(c, mask) && c in all && (c.index.New? ==> c.fd !in channels)
      modifies this`channels, this`kernel, c`index
      ensures Valid()
      ensures Ok((Maps(), c.index)) == Update(old(Maps()), c.fd, c, old(c.index), c.events)
    {
      assert Mirrored(Maps(), c, c.fd, mask, c.index);
      if !c.index.Added? {
        if c.index.New? {
          channels := channels[c.fd := c];
        }
        c.index := Added;
        Control(CtlAdd, c);
      } else if c.events == NONE_EVENT {
        Control(CtlDel, c);
        c.index := Deleted;
      } else {
        Control(CtlMod, c);
      }
    }

    lemma PointerIsRegistered(fd: int)
      requires Valid() && fd in kernel
      ensures fd in channels && kernel[fd].ptr == channels[fd] && channels[fd] in all
      ensures channels[fd].fd == fd && channels[fd].index.Added?
    {
      assert fd in channels.Keys;
      var c := channels[fd];
      assert c in all && c.fd == fd;
      var v := Maps();
      assert fd in v.kernel && fd in v.channels && v.channels[fd] == c;
      assert Mirrored(v, c, c.fd, c.events, c.index);
    }

    /** The kernel hands back the pointers it was given: registered channels, in the order of the
        descriptors it reports. Each one gets the events reported for it, and no other channel
        changes. */
    method FillActiveChannels(ready: seq<(int, Mask)>) returns (active: seq<Channel>)
      requires Valid() && forall i :: 0 <= i < |ready| ==> ready[i].0 in kernel
      requires forall i, j :: 0 <= i < j < |ready| ==> ready[i].0 != ready[j].0
      modifies all`revents
      ensures Valid() && |active| == |ready|
      ensures forall i :: 0 <= i < |ready| ==> IsActive(active[i], ready[i].0) && active[i].revents == ready[i].1
      ensures forall c :: c in all && c !in active ==> c.revents == old(c.revents)
    {
      active := [];
      var i := 0;
      while i < |ready|
        invariant 0 <= i == |active| <= |ready| && Valid()
        invariant forall k :: 0 <= k < i ==> IsActive(active[k], ready[k].0) && active[k].revents == ready[k].1
        invariant forall c :: c in all && c !in active ==> c.revents == old(c.revents)
      {
        PointerIsRegistered(ready[i].0);
        var channel := kernel[ready[i].0].ptr;
        channel.revents := ready[i].1;
        active := active + [channel];
        i := i + 1;
      }
    }

    /** `c` is registered for the descriptor. */
    ghost predicate IsActive(c: Channel, fd: int)
      reads this, all
    {
      c in all && c.fd == fd && fd in channels && channels[fd] == c && c.index.Added?
    }

    method RemoveChannel(c: Channel)
      requires Valid() && c in all && !c.index.New?
      modifies this`channels, this`kernel, c`index
      ensures Valid() && c.index.New? && c.fd !in channels && c.fd !in kernel
      ensures Ok(Maps()) == Remove(old(Maps()), c.fd, c, old(c.index))
    {
      assert Mirrored(Maps(), c, c.fd, c.events, c.index);
      channels := channels - {c.fd};
      if c.index.Added? {
        Control(CtlDel, c);
      }
      c.index := New;
    }
  }
}
