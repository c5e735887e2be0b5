/** `TimeHeap` of `MiniHeap.cpp` as an object: the queue of timers and the timerfd are updated in
    place, also by the routines that `handleRead` resumes. */
module TimeHeap {
  import opened Wrappers
  import opened Timers
  import opened TimerActs

  /** One Timer object; `reset` deletes it. */
  class Timer {
    const owner: nat
    const expire: int
    var deleted: bool

    constructor (owner: nat, expire: int)
      ensures this.owner == owner && this.expire == expire && !deleted
    {
      this.owner, this.expire := owner, expire;
      deleted := false;
    }
  }

  /** What the routines of the first `n` expired timers do, one after the other. */
  function Performed(acts: seq<seq<Act>>, n: nat): seq<Act> {
    if n == 0 then [] else Performed(acts, n - 1) + ActsOf(acts, n - 1)
  }

  function ActsOf(acts: seq<seq<Act>>, i: nat): seq<Act> {
    if i < |acts| then acts[i] else []
  }

  /** Every timer that the acts have added belongs to the routine that added it. */
  ghost predicate Owned(acts: seq<Act>, log: seq<Done<Timer>>) {
    |log| == |acts| && forall i :: 0 <= i < |acts| ==> OwnedBy(acts[i], log[i])
  }

  ghost predicate OwnedBy(act: Act, done: Done<Timer>) {
    act.Add? && done.Inserted? ==> done.e.timer.owner == act.owner
  }

  /** From `start`, the acts have led to `h`, and the log says how. */
  ghost predicate Leads(start: seq<Entry<Timer>>, acts: seq<Act>, log: seq<Done<Timer>>, h: seq<Entry<Timer>>) {
    h == Replay(start, log) && Performs(start, acts, log) && Owned(acts, log)
  }

  lemma LeadsOn(start: seq<Entry<Timer>>, acts: seq<Act>, log: seq<Done<Timer>>, h: seq<Entry<Timer>>, act: Act,
          done: Done<Timer>)
    requires Leads(start, acts, log, h) && Fits(h, act, done)
    requires OwnedBy(act, done)
    ensures Leads(start, acts + [act], log + [done], Apply(h, done))
  {
    PerformsOneMore(start, acts, log, act, done);
  }

  lemma LeadsNowhere(start: seq<Entry<Timer>>, acts: seq<seq<Act>>)
    ensures Leads(start, Performed(acts, 0), [], start)
  {
  }

  /** howMuchTimeFromNow: the delay is at least 100 microseconds, so that the value never is the
      zero that disarms a timerfd. */
  method HowMuchTimeFromNow(when: int, now: int) returns (sec: int, nsec: int)
    ensures 0 <= nsec < 1_000_000_000 && nsec % 1000 == 0 && (sec > 0 || nsec > 0)
    ensures when - now >= 100 ==> now + sec * 1_000_000 + nsec / 1000 == when
    ensures when - now < 100 ==> sec == 0 && nsec == 100_000
  {
    var microseconds := when - now;
    if microseconds < MIN_DELAY {
      microseconds := MIN_DELAY;
    }
    sec := microseconds / MICROS_PER_SECOND;
    nsec := microseconds % MICROS_PER_SECOND * 1000;
  }

  /** The timers of the first `n` entries, in order. */
  function TimersOf<T>(h: seq<Entry<T>>, n: nat): (ts: seq<T>)
    requires n <= |h|
    ensures |ts| == n && forall k :: 0 <= k < n ==> ts[k] == h[k].timer
  {
    if n == 0 then [] else TimersOf(h, n - 1) + [h[n - 1].timer]
  }

  ghost predicate Queue<T>(h: seq<Entry<T>>) {
    Sorted(h) && NoRepeats(h)
  }

  /** The entries are under the deadlines of their timers, none of which has been deleted. */
  ghost predicate Live(h: seq<Entry<Timer>>)
    reads set e | e in h :: e.timer
  {
    forall e :: e in h ==> e.timer.expire == e.when && !e.timer.deleted
  }

  lemma InsertQueue<T>(h: seq<Entry<T>>, e: Entry<T>, tf: TimerFd, now: int)
    requires Queue(h) && forall x :: x in h ==> x.timer != e.timer
    ensures Queue(Insert(h, e)) && forall x :: x in Insert(h, e) <==> x == e || x in h
    ensures Covers(tf, h) ==> Covers(if EarliestChanges(h, e.when) then Arm(now, e.when) else tf, Insert(h, e))
  {
    InsertKeeps(h, e);
    InsertNoRepeats(h, e);
  }

  lemma EraseQueue<T>(h: seq<Entry<T>>, k: nat, tf: TimerFd)
    requires Queue(h) && k < |h|
    ensures Queue(Erase(h, k)) && forall x :: x in Erase(h, k) ==> x in h
    ensures Covers(tf, h) ==> Covers(tf, Erase(h, k))
  {
    EraseKeeps(h, k);
  }

  lemma SplitConcat<T>(h: seq<T>, k: nat)
    requires k <= |h|
    ensures h == h[..k] + h[k..]
  {
  }

  lemma SplitNoRepeats<T>(h: seq<Entry<T>>, k: nat)
    requires NoRepeats(h) && k <= |h|
    ensures NoRepeats(h[..k]) && NoRepeats(h[k..])
    ensures forall e, x :: e in h[..k] && x in h[k..] ==> e.timer != x.timer
  {
    forall e, x | e in h[..k] && x in h[k..]
      ensures e.timer != x.timer
    {
      var i :| 0 <= i < k && h[..k][i] == e;
      var j :| 0 <= j < |h| - k && h[k..][j] == x;
      assert h[i].timer != h[k + j].timer;
    }
  }

  /** What is left at the end of a pass: everything that was there or has been added and that
      nobody has cancelled, and nothing else. */
  ghost predicate Survive(start: seq<Entry<Timer>>, acts: seq<Act>, log: seq<Done<Timer>>, h: seq<Entry<Timer>>) {
    && (forall e :: e in h ==> e in start || Inserted(e) in log)
    && (forall e :: e in start && Del(e.when) !in acts ==> e in h)
    && (forall d :: d in log && d.Inserted? && Del(d.e.when) !in acts ==> d.e in h)
  }

  lemma Survivors(start: seq<Entry<Timer>>, acts: seq<Act>, log: seq<Done<Timer>>, h: seq<Entry<Timer>>)
    requires Sorted(start) && Leads(start, acts, log, h)
    ensures Survive(start, acts, log, h)
  {
    forall e | e in h
      ensures e in start || Inserted(e) in log
    {
      assert log[..|log|] == log == log[0..] && log[..0] == [];
      ComesFrom(start, log, 0, |log|, e);
    }
    forall e | e in start && Del(e.when) !in acts
      ensures e in h
    {
      StaysUnlessCancelled(start, acts, log, e);
    }
    forall d | d in log && d.Inserted? && Del(d.e.when) !in acts
      ensures d.e in h
    {
      StaysUnlessCancelled(start, acts, log, d.e);
    }
  }

  class TimeHeap {
    var timers: seq<Entry<Timer>>
    var armed: TimerFd

    ghost predicate Valid()
      reads this, set e | e in timers :: e.timer
    {
      Queue(timers) && Live(timers)
    }

    ghost predicate Covered()
      reads this
    {
      Covers(armed, timers)
    }

    constructor ()
      ensures Valid() && Covered() && timers == [] && armed == TimerFd(None, 0)
    {
      timers, armed := [], TimerFd(None, 0);
    }

    /** resetTimerfd, timerfd_settime with a relative value. */
    method ResetTimerfd(when: int, now: int)
      modifies this`armed
      ensures SetFor(armed, now, when)
    {
      var sec, nsec := HowMuchTimeFromNow(when, now);
      armed := TimerFd(Some(now + sec * MICROS_PER_SECOND + nsec / 1000), now);
    }

    method AddTimer(owner: nat, when: int, now: int) returns (t: Timer)
      requires Valid()
      modifies this
      ensures Valid() && fresh(t) && t.owner == owner && t.expire == when
      ensures timers == Insert(old(timers), Entry(when, t))
      ensures forall e :: e in timers <==> e in old(timers) || e == Entry(when, t)
      ensures if EarliestChanges(old(timers), when) then SetFor(armed, now, when) else armed == old(armed)
      ensures old(Covered()) ==> Covered()
    {
      t := new Timer(owner, when);
      var earliestChanged := timers == [] || when < timers[0].when;
      InsertQueue(timers, Entry(when, t), armed, now);
      timers := Insert(timers, Entry(when, t));
      if earliestChanged {
        ResetTimerfd(when, now);
      }
    }

    /** multimap::find: some entry of that deadline. */
    method Find(when: int) returns (found: Option<nat>)
      ensures found.None? ==> forall e :: e in timers ==> e.when != when
      ensures found.Some? ==> found.value < |timers| && timers[found.value].when == when
    {
      var i := 0;
      while i < |timers|
        invariant 0 <= i <= |timers|
        invariant forall k :: 0 <= k < i ==> timers[k].when != when
      {
        if timers[i].when == when {
          return Some(i);
        }
        i := i + 1;
      }
      return None;
    }

    /** At most one entry goes, one of that deadline. The timerfd is not touched, and need not be. */
    method EraseAt(when: int) returns (ghost done: Done<Timer>)
      requires Valid()
      modifies this`timers
      ensures Valid() && (old(Covered()) ==> Covered())
      ensures timers == Apply(old(timers), done) && Fits(old(timers), Del(when), done)
      ensures forall e :: e in timers ==> e in old(timers)
    {
      var found := Find(when);
      done := NotFound;
      if found.Some? {
        EraseQueue(timers, found.value, armed);
        done := Erased(found.value);
        timers := Erase(timers, found.value);
      }
    }

    /** The entry erased is the timer's own when no other entry shares its deadline. */
    method DelTimer(t: Timer) returns (ghost done: Done<Timer>)
      requires Valid() && !t.deleted
      modifies this`timers
      ensures Valid() && (old(Covered()) ==> Covered())
      ensures timers == Apply(old(timers), done) && Fits(old(timers), Del(t.expire), done)
      ensures Unshared(old(timers), t.expire) && Entry(t.expire, t) in old(timers) ==>
                done.Erased? && old(timers)[done.k] == Entry(t.expire, t) && Entry(t.expire, t) !in timers
    {
      ghost var h := timers;
      done := EraseAt(t.expire);
      if Unshared(h, t.expire) && Entry(t.expire, t) in h {
        ErasesOnly(h, done, Entry(t.expire, t));
      }
    }

    /** Everything before `now`, in order; the assert is about an entry at `now` itself. */
    method GetExpired(now: int) returns (expired: seq<Entry<Timer>>)
      requires Valid() && forall e :: e in timers ==> e.when != now
      modifies this`timers
      ensures Valid() && expired + timers == old(timers)
      ensures (forall e :: e in expired ==> e.when < now) && (forall e :: e in timers ==> now < e.when)
      ensures NoRepeats(expired)
      ensures forall e :: e in expired ==>
                e in old(timers) && !e.timer.deleted && forall x :: x in timers ==> x.timer != e.timer
    {
      var it := LowerBound(timers, now);
      SplitAtNow(timers, now);
      SplitNoRepeats(timers, it);
      SplitConcat(timers, it);
      expired := timers[..it];
      timers := timers[it..];
    }

    /** reset: the expired timers are deleted, each once, and the timerfd is set for the earliest
        deadline left. */
    method Reset(expired: seq<Entry<Timer>>, now: int)
      requires Valid() && NoRepeats(expired)
      requires forall e :: e in expired ==> !e.timer.deleted && forall x :: x in timers ==> x.timer != e.timer
      modifies this`armed, set e | e in expired :: e.timer
      ensures Valid() && forall e :: e in expired ==> e.timer.deleted
      ensures if timers != [] && timers[0].when > 0 then SetFor(armed, now, timers[0].when) else armed == old(armed)
    {
      var i := 0;
      while i < |expired|
        invariant 0 <= i <= |expired|
        invariant forall k :: 0 <= k < i ==> expired[k].timer.deleted
        invariant forall k :: i <= k < |expired| ==> !expired[k].timer.deleted
        invariant Valid() && armed == old(armed)
      {
        assert expired[i] in expired;
        expired[i].timer.deleted := true;
        i := i + 1;
      }
      if timers != [] {
        var nextExpire := timers[0].timer.expire;
        if nextExpire > 0 {
          ResetTimerfd(nextExpire, now);
        }
      }
    }

    method PerformOne(act: Act) returns (ghost done: Done<Timer>)
      requires Valid()
      modifies this
      ensures Valid() && timers == Apply(old(timers), done) && Fits(old(timers), act, done)
      ensures OwnedBy(act, done) && (done.Inserted? ==> fresh(done.e.timer))
    {
      match act
      case Add(owner, when, now) =>
        var t := AddTimer(owner, when, now);
        done := Inserted(Entry(when, t));
      case Del(when) =>
        done := EraseAt(when);
    }

    /** A routine adds and cancels timers, as others have done since the queue was `start`. */
    method Perform(acts: seq<Act>, ghost start: seq<Entry<Timer>>, ghost acts0: seq<Act>, ghost log0: seq<Done<Timer>>)
      returns (ghost log: seq<Done<Timer>>)
      requires Valid() && Leads(start, acts0, log0, timers)
      modifies this
      ensures Valid() && Leads(start, acts0 + acts, log, timers)
      ensures forall d :: d in log && d.Inserted? ==> d in log0 || fresh(d.e.timer)
    {
      log := log0;
      var i := 0;
      assert acts0 + acts[..0] == acts0;
      while i < |acts|
        invariant 0 <= i <= |acts| && Valid()
        invariant Leads(start, acts0 + acts[..i], log, timers)
        invariant forall d :: d in log && d.Inserted? ==> d in log0 || fresh(d.e.timer)
      {
        ghost var h := timers;
        ghost var done := PerformOne(acts[i]);
        LeadsOn(start, acts0 + acts[..i], log, h, acts[i], done);
        assert acts0 + acts[..i + 1] == acts0 + acts[..i] + [acts[i]];
        log := log + [done];
        i := i + 1;
      }
      assert acts[..i] == acts;
    }

    /** run() on the i-th expired timer. */
    method RunOne(acts: seq<seq<Act>>, i: nat, ghost start: seq<Entry<Timer>>, ghost log0: seq<Done<Timer>>)
      returns (ghost log: seq<Done<Timer>>)
      requires Valid() && Leads(start, Performed(acts, i), log0, timers)
      modifies this
      ensures Valid() && Leads(start, Performed(acts, i + 1), log, timers)
      ensures forall d :: d in log && d.Inserted? ==> d in log0 || fresh(d.e.timer)
    {
      log := Perform(ActsOf(acts, i), start, Performed(acts, i), log0);
    }

    /** The loop over the expired timers: run() on each, in order. The queue afterwards is what the
        acts of their routines have made of it. */
    method RunExpired(expired: seq<Entry<Timer>>, acts: seq<seq<Act>>)
      returns (fired: seq<Timer>, ghost log: seq<Done<Timer>>)
      requires Valid()
      modifies this
      ensures fired == TimersOf(expired, |expired|)
      ensures Valid() && Leads(old(timers), Performed(acts, |expired|), log, timers)
      ensures Survive(old(timers), Performed(acts, |expired|), log, timers)
      ensures forall d :: d in log && d.Inserted? ==> fresh(d.e.timer)
    {
      LeadsNowhere(timers, acts);
      fired, log := [], [];
      var i := 0;
      while i < |expired|
        invariant 0 <= i <= |expired| && Valid() && fired == TimersOf(expired, i)
        invariant Leads(old(timers), Performed(acts, i), log, timers)
        invariant forall d :: d in log && d.Inserted? ==> fresh(d.e.timer)
      {
        log := RunOne(acts, i, old(timers), log);
        fired := fired + [expired[i].timer];
        i := i + 1;
      }
      Survivors(old(timers), Performed(acts, |expired|), log, timers);
    }

    /** handleRead at time `now`. The routine of the i-th expired timer performs acts[i]. Exactly the
        timers before `now` run, in the order of their deadlines, and are deleted; the queue is
        what the acts make of the rest: what is there or has been added, and is not cancelled, is
        queued and has not run; and the timerfd covers the earliest deadline again. */
    method HandleRead(now: int, acts: seq<seq<Act>>)
      returns (fired: seq<Timer>, ghost expired: seq<Entry<Timer>>, ghost rest: seq<Entry<Timer>>,
               ghost log: seq<Done<Timer>>)
      requires Valid() && forall e :: e in timers ==> e.when != now
      modifies this, set e | e in timers :: e.timer
      ensures Valid() && old(timers) == expired + rest
      ensures (forall e :: e in expired ==> e.when < now && e.timer.deleted) && (forall e :: e in rest ==> now < e.when)
      ensures fired == TimersOf(expired, |expired|)
      ensures Leads(rest, Performed(acts, |expired|), log, timers)
      ensures Survive(rest, Performed(acts, |expired|), log, timers)
      ensures forall d :: d in log && d.Inserted? ==> fresh(d.e.timer)
      ensures (forall e :: e in timers ==> e.when > 0) ==> Covered()
    {
      armed := ReadTimerFd(armed, now);
      var before := GetExpired(now);
      expired, rest := before, timers;
      fired, log := RunExpired(before, acts);
      Reset(before, now);
    }
  }
}
