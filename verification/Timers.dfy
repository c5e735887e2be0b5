/** The sorted multimap `timers_` and the timerfd of `MiniHeap.cpp`, on values. */
module Timers {
  import opened Wrappers

  datatype Entry<T> = Entry(when: int, timer: T)

  ghost predicate Sorted<T>(h: seq<Entry<T>>) {
    forall i, j :: 0 <= i < j < |h| ==> h[i].when <= h[j].when
  }

  /** Every timer is in the queue at most once. */
  ghost predicate NoRepeats<T>(h: seq<Entry<T>>) {
    forall i, j :: 0 <= i < j < |h| ==> h[i].timer != h[j].timer
  }

  /** At most one entry of the queue has the deadline `when`. */
  ghost predicate Unshared<T>(h: seq<Entry<T>>, when: int) {
    forall i, j :: 0 <= i < j < |h| ==> !(h[i].when == when == h[j].when)
  }

  /** `lower_bound`: the position of the first entry that is not before `now`. */
  function LowerBound<T>(h: seq<Entry<T>>, now: int): (k: nat)
    ensures k <= |h|
    ensures forall i :: 0 <= i < k ==> h[i].when < now
    ensures k < |h| ==> now <= h[k].when
  {
    if h == [] || now <= h[0].when then 0 else 1 + LowerBound(h[1..], now)
  }

  /** `insert`: after every entry that is not later, so equal deadlines keep their order. */
  function Insert<T>(h: seq<Entry<T>>, e: Entry<T>): seq<Entry<T>> {
    var k := LowerBound(h, e.when + 1);
    h[..k] + [e] + h[k..]
  }

  function Erase<T>(h: seq<Entry<T>>, k: nat): seq<Entry<T>>
    requires k < |h|
  {
    h[..k] + h[k + 1..]
  }

  /** What the insertion of `when` does to the front of the queue. */
  predicate EarliestChanges<T>(h: seq<Entry<T>>, when: int) {
    h == [] || when < h[0].when
  }

  lemma InsertAt<T>(h: seq<Entry<T>>, e: Entry<T>) returns (k: nat)
    ensures k == LowerBound(h, e.when + 1) && |Insert(h, e)| == |h| + 1
    ensures forall i :: 0 <= i <= |h| ==> Insert(h, e)[i] == if i < k then h[i] else if i == k then e else h[i - 1]
  {
    k := LowerBound(h, e.when + 1);
  }

  lemma InsertSorted<T>(h: seq<Entry<T>>, e: Entry<T>)
    requires Sorted(h)
    ensures Sorted(Insert(h, e))
    ensures Insert(h, e)[0] == if EarliestChanges(h, e.when) then e else h[0]
  {
    var k := InsertAt(h, e);
  }

  lemma InsertAdds<T>(h: seq<Entry<T>>, e: Entry<T>)
    ensures multiset(Insert(h, e)) == multiset(h) + multiset{e}
  {
    var k := LowerBound(h, e.when + 1);
    assert multiset(h) == multiset(h[..k]) + multiset(h[k..]) by {
      assert h == h[..k] + h[k..];
    }
  }

  lemma InsertKeeps<T>(h: seq<Entry<T>>, e: Entry<T>)
    requires Sorted(h)
    ensures Sorted(Insert(h, e))
    ensures multiset(Insert(h, e)) == multiset(h) + multiset{e}
    ensures forall x :: x in Insert(h, e) <==> x == e || x in h
    ensures Insert(h, e)[0] == if EarliestChanges(h, e.when) then e else h[0]
  {
    InsertSorted(h, e);
    InsertAdds(h, e);
    forall x
      ensures x in Insert(h, e) <==> x == e || x in h
    {
      assert x in Insert(h, e) <==> x in multiset(Insert(h, e));
      assert x in h <==> x in multiset(h);
    }
  }

  /** Equal deadlines keep their order: everything that is not later stays in front. */
  lemma InsertBehindEquals<T>(h: seq<Entry<T>>, e: Entry<T>, i: nat)
    requires Sorted(h) && i < |h|
    ensures h[i].when <= e.when ==> Insert(h, e)[i] == h[i]
    ensures h[i].when > e.when ==> Insert(h, e)[i + 1] == h[i]
  {
    var k := InsertAt(h, e);
  }

  lemma InsertNoRepeats<T>(h: seq<Entry<T>>, e: Entry<T>)
    requires NoRepeats(h) && forall x :: x in h ==> x.timer != e.timer
    ensures NoRepeats(Insert(h, e))
  {
    var k := InsertAt(h, e);
    var h' := Insert(h, e);
    forall i, j | 0 <= i < j < |h'|
      ensures h'[i].timer != h'[j].timer
    {
      if i == k {
        assert h[j - 1] in h;
      } else if j == k {
        assert h[i] in h;
      }
    }
  }

  lemma EraseAt<T>(h: seq<Entry<T>>, k: nat)
    requires k < |h|
    ensures |Erase(h, k)| == |h| - 1
    ensures forall i :: 0 <= i < |h| - 1 ==> Erase(h, k)[i] == h[if i < k then i else i + 1]
  {
  }

  lemma EraseSorted<T>(h: seq<Entry<T>>, k: nat)
    requires Sorted(h) && k < |h|
    ensures Sorted(Erase(h, k))
    ensures Erase(h, k) != [] ==> h[0].when <= Erase(h, k)[0].when
  {
    EraseAt(h, k);
  }

  lemma EraseCounts<T>(h: seq<Entry<T>>, k: nat)
    requires k < |h|
    ensures multiset(Erase(h, k)) + multiset{h[k]} == multiset(h)
  {
    assert h == h[..k] + [h[k]] + h[k + 1..];
  }

  lemma EraseMembers<T>(h: seq<Entry<T>>, k: nat)
    requires k < |h|
    ensures forall x :: x in Erase(h, k) ==> x in h
    ensures forall x :: x in h && x != h[k] ==> x in Erase(h, k)
  {
    EraseAt(h, k);
    var h' := Erase(h, k);
    forall x | x in h && x != h[k]
      ensures x in h'
    {
      var i :| 0 <= i < |h| && h[i] == x;
      assert h'[if i < k then i else i - 1] == x;
    }
  }

  lemma EraseNoRepeats<T>(h: seq<Entry<T>>, k: nat)
    requires NoRepeats(h) && k < |h|
    ensures NoRepeats(Erase(h, k)) && h[k] !in Erase(h, k)
  {
    EraseAt(h, k);
  }

  lemma EraseKeeps<T>(h: seq<Entry<T>>, k: nat)
    requires Sorted(h) && k < |h|
    ensures Sorted(Erase(h, k))
    ensures multiset(Erase(h, k)) + multiset{h[k]} == multiset(h)
    ensures forall x :: x in Erase(h, k) ==> x in h
    ensures forall x :: x in h && x != h[k] ==> x in Erase(h, k)
    ensures Erase(h, k) != [] ==> h[0].when <= Erase(h, k)[0].when
    ensures NoRepeats(h) ==> NoRepeats(Erase(h, k)) && h[k] !in Erase(h, k)
  {
    EraseSorted(h, k);
    EraseCounts(h, k);
    EraseMembers(h, k);
    if NoRepeats(h) {
      EraseNoRepeats(h, k);
    }
  }

  lemma SplitSorted<T>(h: seq<Entry<T>>, now: int)
    requires Sorted(h)
    ensures var k := LowerBound(h, now);
            Sorted(h[..k]) && Sorted(h[k..]) && forall i :: k <= i < |h| ==> now <= h[i].when
  {
  }

  lemma SplitMembers<T>(h: seq<Entry<T>>, k: nat, now: int)
    requires k <= |h|
    requires (forall i :: 0 <= i < k ==> h[i].when < now) && (forall i :: k <= i < |h| ==> now <= h[i].when)
    ensures forall e :: e in h[..k] <==> e in h && e.when < now
    ensures forall e :: e in h[k..] <==> e in h && now <= e.when
  {
    forall e | e in h
      ensures if e.when < now then e in h[..k] else e in h[k..]
    {
      var i :| 0 <= i < |h| && h[i] == e;
      assert if i < k then h[..k][i] == e else h[k..][i - k] == e;
    }
  }

  lemma SplitCounts<T>(h: seq<T>, k: nat)
    requires k <= |h|
    ensures multiset(h) == multiset(h[..k]) + multiset(h[k..])
  {
    assert h == h[..k] + h[k..];
  }

  /** getExpired's split: everything before `now`, in order, and everything else. */
  lemma SplitAtNow<T>(h: seq<Entry<T>>, now: int)
    requires Sorted(h)
    ensures var k := LowerBound(h, now);
            && Sorted(h[..k]) && Sorted(h[k..])
            && (forall e :: e in h[..k] <==> e in h && e.when < now)
            && (forall e :: e in h[k..] <==> e in h && now <= e.when)
            && multiset(h) == multiset(h[..k]) + multiset(h[k..])
  {
    var k := LowerBound(h, now);
    SplitSorted(h, now);
    SplitMembers(h, k, now);
    SplitCounts(h, k);
  }

  // The timerfd: a one-shot deadline in absolute time, with the time at which it was set.

  datatype TimerFd = TimerFd(armed: Option<int>, since: int)

  const MIN_DELAY := 100
  const MICROS_PER_SECOND := 1_000_000

  /** The timerfd was set at `now` for `when`: for that very time when it is at least 100
      microseconds ahead, and for 100 microseconds ahead otherwise. */
  ghost predicate SetFor(tf: TimerFd, now: int, when: int) {
    tf.since == now && tf.armed == Some(if now + 100 <= when then when else now + 100)
  }

  /** resetTimerfd at time `now`: never sooner than 100 microseconds ahead. */
  function Arm(now: int, when: int): (tf: TimerFd)
    ensures SetFor(tf, now, when)
  {
    TimerFd(Some(now + if when - now < MIN_DELAY then MIN_DELAY else when - now), now)
  }

  /** The descriptor is readable: the deadline has passed and nobody has read it. */
  predicate Pending(tf: TimerFd, clock: int) {
    tf.armed.Some? && tf.armed.value <= clock
  }

  /** readTimerfd: consumes an expiry, and changes nothing when there is none (EAGAIN). */
  function ReadTimerFd(tf: TimerFd, clock: int): TimerFd {
    if Pending(tf, clock) then tf.(armed := None) else tf
  }

  /** The timerfd will become readable no later than the earliest deadline, or 100
      microseconds after it was set where that deadline was nearer than this. */
  predicate Covers<T>(tf: TimerFd, h: seq<Entry<T>>) {
    h == [] || (tf.armed.Some? && (tf.armed.value <= h[0].when || tf.armed.value <= tf.since + MIN_DELAY))
  }

  lemma CoversAfterInsert<T>(tf: TimerFd, h: seq<Entry<T>>, e: Entry<T>, now: int)
    requires Sorted(h) && Covers(tf, h)
    ensures Covers(if EarliestChanges(h, e.when) then Arm(now, e.when) else tf, Insert(h, e))
  {
    InsertKeeps(h, e);
  }
}
