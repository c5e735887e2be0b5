/** What resumed routines do to the queue of timers, as a sequence of additions and cancellations. */
module TimerActs {
  import opened Timers

  datatype Act =
    | Add(owner: nat, when: int, now: int) // addTimer; the clock then reads `now`
    | Del(when: int)                       // delTimer, of a timer with this deadline

  /** What an act has done: the entry that it has inserted, or the position that it has erased. */
  datatype Done<T> = Inserted(e: Entry<T>) | Erased(k: nat) | NotFound

  function Apply<T>(h: seq<Entry<T>>, d: Done<T>): seq<Entry<T>> {
    match d
    case Inserted(e) => Insert(h, e)
    case Erased(k) => if k < |h| then Erase(h, k) else h
    case NotFound => h
  }

  /** The queue after everything in the log. */
  function Replay<T>(h: seq<Entry<T>>, log: seq<Done<T>>): seq<Entry<T>> {
    if log == [] then h else Apply(Replay(h, log[..|log| - 1]), log[|log| - 1])
  }

  /** The act does this in the queue `h`; find may return any entry of the deadline. */
  ghost predicate Fits<T>(h: seq<Entry<T>>, act: Act, d: Done<T>) {
    match act
    case Add(_, when, _) => d.Inserted? && d.e.when == when
    case Del(when) =>
      || (d.Erased? && d.k < |h| && h[d.k].when == when)
      || (d.NotFound? && forall e :: e in h ==> e.when != when)
  }

  /** The acts, one after the other, do what is in the log. */
  ghost predicate Performs<T>(h: seq<Entry<T>>, acts: seq<Act>, log: seq<Done<T>>) {
    |log| == |acts| && forall i :: 0 <= i < |acts| ==> PerformsAt(h, acts, log, i)
  }

  ghost predicate PerformsAt<T>(h: seq<Entry<T>>, acts: seq<Act>, log: seq<Done<T>>, i: nat)
    requires i < |acts| == |log|
  {
    Fits(Replay(h, log[..i]), acts[i], log[i])
  }

  lemma PerformsOneMore<T>(h: seq<Entry<T>>, acts: seq<Act>, log: seq<Done<T>>, act: Act, d: Done<T>)
    requires Performs(h, acts, log) && Fits(Replay(h, log), act, d)
    ensures Performs(h, acts + [act], log + [d]) && Replay(h, log + [d]) == Apply(Replay(h, log), d)
  {
    assert (log + [d])[..|log|] == log;
    forall i | 0 <= i <= |acts|
      ensures PerformsAt(h, acts + [act], log + [d], i)
    {
      if i < |acts| {
        assert PerformsAt(h, acts, log, i);
        assert (log + [d])[..i] == log[..i];
      }
    }
  }

  lemma PerformsFewer<T>(h: seq<Entry<T>>, acts: seq<Act>, log: seq<Done<T>>, n: nat)
    requires Performs(h, acts, log) && n <= |acts|
    ensures Performs(h, acts[..n], log[..n])
  {
    forall i | 0 <= i < n
      ensures PerformsAt(h, acts[..n], log[..n], i)
    {
      assert PerformsAt(h, acts, log, i);
      assert log[..n][..i] == log[..i];
    }
  }

  /** The last act of a performance, and the performance before it. */
  lemma LastAct<T>(h: seq<Entry<T>>, acts: seq<Act>, log: seq<Done<T>>, n: nat)
    requires Performs(h, acts, log) && n + 1 == |log|
    ensures Performs(h, acts[..n], log[..n]) && Fits(Replay(h, log[..n]), acts[n], log[n])
    ensures acts == acts[..n] + [acts[n]] && log == log[..n] + [log[n]]
  {
    PerformsFewer(h, acts, log, n);
    assert PerformsAt(h, acts, log, n);
  }

  // What the queue contains afterwards

  lemma ApplyMembers<T>(h: seq<Entry<T>>, d: Done<T>)
    requires Sorted(h)
    ensures Sorted(Apply(h, d))
    ensures forall x :: x in Apply(h, d) ==> x in h || d == Inserted(x)
    ensures forall x :: x in h && !(d.Erased? && d.k < |h| && h[d.k] == x) ==> x in Apply(h, d)
    ensures d.Inserted? ==> d.e in Apply(h, d)
  {
    match d
    case Inserted(e) => InsertKeeps(h, e);
    case Erased(k) =>
      if k < |h| {
        EraseKeeps(h, k);
      }
    case NotFound =>
  }

  lemma {:induction false} ReplaySorted<T>(h: seq<Entry<T>>, log: seq<Done<T>>)
    requires Sorted(h)
    ensures Sorted(Replay(h, log))
  {
    if log == [] {
    } else {
      ReplaySorted(h, log[..|log| - 1]);
      ApplyMembers(Replay(h, log[..|log| - 1]), log[|log| - 1]);
    }
  }

  lemma LastComesFrom<T>(h: seq<Entry<T>>, log: seq<Done<T>>, n: nat, e: Entry<T>)
    requires Sorted(h) && n + 1 == |log| && e in Replay(h, log)
    ensures e in Replay(h, log[..n]) || log[n] == Inserted(e)
  {
    ReplaySorted(h, log[..n]);
    ApplyMembers(Replay(h, log[..n]), log[n]);
  }

  /** Nothing is queued but what was queued before or has been added. */
  lemma {:induction false} ComesFrom<T>(h: seq<Entry<T>>, log: seq<Done<T>>, i: nat, n: nat, e: Entry<T>)
    requires Sorted(h) && i <= n <= |log| && e in Replay(h, log[..n])
    ensures e in Replay(h, log[..i]) || Inserted(e) in log[i..]
  {
    if n == i {
    } else {
      LastComesFrom(h, log[..n], n - 1, e);
      assert log[..n][..n - 1] == log[..n - 1];
      if e in Replay(h, log[..n - 1]) {
        ComesFrom(h, log, i, n - 1, e);
      } else {
        assert log[i..][n - 1 - i] == log[n - 1];
      }
    }
  }

  /** An entry whose deadline nobody cancels is queued afterwards, whether it was there or has been
      added. */
  lemma {:induction false} StaysUnlessCancelled<T>(h: seq<Entry<T>>, acts: seq<Act>, log: seq<Done<T>>, e: Entry<T>)
    requires Sorted(h) && Performs(h, acts, log) && Del(e.when) !in acts
    requires e in h || Inserted(e) in log
    ensures e in Replay(h, log)
    decreases |log|
  {
    if log == [] {
    } else {
      var n := |log| - 1;
      LastAct(h, acts, log, n);
      ReplaySorted(h, log[..n]);
      ApplyMembers(Replay(h, log[..n]), log[n]);
      if log[n] != Inserted(e) {
        assert acts[n] in acts;
        StaysUnlessCancelled(h, acts[..n], log[..n], e);
      }
    }
  }

  /** Cancelling the only entry of a deadline removes it, for good unless it is added again. */
  lemma CancelledIsGone<T>(h: seq<Entry<T>>, acts: seq<Act>, log: seq<Done<T>>, i: nat, e: Entry<T>)
    requires Sorted(h) && Performs(h, acts, log) && i < |acts| && acts[i] == Del(e.when)
    requires Unshared(Replay(h, log[..i]), e.when) && e in Replay(h, log[..i]) && Inserted(e) !in log[i + 1..]
    ensures e !in Replay(h, log)
  {
    var q, d := Replay(h, log[..i]), log[i];
    assert PerformsAt(h, acts, log, i);
    ErasesOnly(q, d, e);
    assert log[..i + 1][..i] == log[..i] && Replay(h, log[..i + 1]) == Apply(q, d);
    if e in Replay(h, log) {
      assert log[..|log|] == log;
      ComesFrom(h, log, i + 1, |log|, e);
    }
  }

  lemma ErasesOnly<T>(h: seq<Entry<T>>, d: Done<T>, e: Entry<T>)
    requires Unshared(h, e.when) && e in h && Fits(h, Del(e.when), d)
    ensures d.Erased? && d.k < |h| && h[d.k] == e && e !in Apply(h, d)
  {
    var i :| 0 <= i < |h| && h[i] == e;
    assert d.Erased? && i == d.k;
    EraseAt(h, d.k);
  }

  // Accounts

  function Deadlines<T>(h: seq<Entry<T>>): seq<int> {
    seq(|h|, i requires 0 <= i < |h| => h[i].when)
  }

  /** The deadlines that are added, in order. */
  function Adds(acts: seq<Act>): seq<int> {
    if acts == [] then [] else
    var act := acts[|acts| - 1];
    Adds(acts[..|acts| - 1]) + if act.Add? then [act.when] else []
  }

  function Dels(acts: seq<Act>): seq<int> {
    if acts == [] then [] else
    var act := acts[|acts| - 1];
    Dels(acts[..|acts| - 1]) + if act.Del? then [act.when] else []
  }

  function Inserts<T>(log: seq<Done<T>>): seq<Entry<T>> {
    if log == [] then [] else
    var d := log[|log| - 1];
    Inserts(log[..|log| - 1]) + if d.Inserted? then [d.e] else []
  }

  function Erases<T>(h: seq<Entry<T>>, log: seq<Done<T>>): seq<Entry<T>> {
    if log == [] then [] else
    var q, d := Replay(h, log[..|log| - 1]), log[|log| - 1];
    Erases(h, log[..|log| - 1]) + if d.Erased? && d.k < |q| then [q[d.k]] else []
  }

  ghost function InsertedBy<T>(d: Done<T>): multiset<Entry<T>> {
    if d.Inserted? then multiset{d.e} else multiset{}
  }

  ghost function ErasedBy<T>(h: seq<Entry<T>>, d: Done<T>): multiset<Entry<T>> {
    if d.Erased? && d.k < |h| then multiset{h[d.k]} else multiset{}
  }

  lemma ApplyCounts<T>(h: seq<Entry<T>>, d: Done<T>)
    ensures multiset(h) + InsertedBy(d) == multiset(Apply(h, d)) + ErasedBy(h, d)
  {
    match d
    case Inserted(e) => InsertAdds(h, e);
    case Erased(k) =>
      if k < |h| {
        EraseCounts(h, k);
      }
    case NotFound =>
  }

  lemma SumsAdd<T>(a: multiset<T>, i: multiset<T>, r: multiset<T>, e: multiset<T>, i': multiset<T>, r': multiset<T>,
          e': multiset<T>)
    requires a + i == r + e && r + i' == r' + e'
    ensures a + (i + i') == r' + (e + e')
  {
    forall x
      ensures (a + (i + i'))[x] == (r' + (e + e'))[x]
    {
      assert (a + i)[x] == (r + e)[x] && (r + i')[x] == (r' + e')[x];
    }
    assert a + (i + i') == r' + (e + e');
  }

  /** Nothing is lost, nothing appears: what was queued and what was added is queued, or has been
      erased. */
  lemma {:induction false} ReplayBalances<T>(h: seq<Entry<T>>, log: seq<Done<T>>)
    ensures multiset(h) + multiset(Inserts(log)) == multiset(Replay(h, log)) + multiset(Erases(h, log))
  {
    if log == [] {
    } else {
      var n := |log| - 1;
      var q, d := Replay(h, log[..n]), log[n];
      ReplayBalances(h, log[..n]);
      ApplyCounts(q, d);
      SumsAdd(multiset(h), multiset(Inserts(log[..n])), multiset(q), multiset(Erases(h, log[..n])),
              InsertedBy(d), multiset(Apply(q, d)), ErasedBy(q, d));
    }
  }

  lemma {:induction false} InsertsAdded<T>(h: seq<Entry<T>>, acts: seq<Act>, log: seq<Done<T>>)
    requires Performs(h, acts, log)
    ensures Deadlines(Inserts(log)) == Adds(acts)
    decreases |log|
  {
    if log == [] {
    } else {
      LastAct(h, acts, log, |log| - 1);
      InsertsAdded(h, acts[..|log| - 1], log[..|log| - 1]);
    }
  }

  /** Every cancellation erases at most one entry, of its own deadline. */
  lemma {:induction false} ErasesCancelled<T>(h: seq<Entry<T>>, acts: seq<Act>, log: seq<Done<T>>)
    requires Performs(h, acts, log)
    ensures multiset(Deadlines(Erases(h, log))) <= multiset(Dels(acts))
    decreases |log|
  {
    if log == [] {
    } else {
      var n := |log| - 1;
      LastAct(h, acts, log, n);
      ErasesCancelled(h, acts[..n], log[..n]);
      var q, d := Replay(h, log[..n]), log[n];
      if d.Erased? && d.k < |q| {
        assert Deadlines(Erases(h, log)) == Deadlines(Erases(h, log[..n])) + [q[d.k].when];
      } else {
        assert Erases(h, log) == Erases(h, log[..n]);
      }
    }
  }
}
