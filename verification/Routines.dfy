/** `RoutineEnv_t` of `routine.cpp`: the call stack of asymmetric routines, and which of the
    saved register sets (`ctx_`) a swap may load. */
module Routines {
  import opened Wrappers

  /** Routines are numbered in the order of their creation; the main routine comes first. */
  type Rid = nat

  const MAIN: Rid := 0
  const CAPACITY := 128

  /** `stack` is CallStack_[..CallStackSize_]; `made` holds the routines whose `start_` is set;
      `ready` the routines whose ctx_ has been built or saved and not been loaded since;
      `resumer` who resumed a routine last. */
  datatype Env = Env(stack: seq<Rid>, made: set<Rid>, ready: set<Rid>, resumer: map<Rid, Rid>)

  /** init_curr_thread_env: main runs; its zeroed context is not ready. */
  const INITIAL := Env([MAIN], {}, {}, map[])

  function Top(e: Env): Rid
    requires e.stack != []
  {
    e.stack[|e.stack| - 1]
  }

  /** Swap_two_routine: save the registers of `curr`, then load those of `next`. */
  function Swap(e: Env, curr: Rid, next: Rid): Outcome<Env> {
    var ready := e.ready + {curr};
    if next !in ready then Fault(DeadContext) else Ok(e.(ready := ready - {next}))
  }

  function Resume(e: Env, r: Rid): Outcome<Env> {
    if e.stack == [] then Fault(CallStackUnderflow) else
    var curr := Top(e);
    var e1 := if r in e.made then e else e.(made := e.made + {r}, ready := e.ready + {r});
    if |e.stack| >= CAPACITY then Fault(CallStackOverflow) else
    Swap(e1.(stack := e.stack + [r], resumer := e.resumer[r := curr]), curr, r)
  }

  function Yield(e: Env): Outcome<Env> {
    if |e.stack| < 2 then Fault(CallStackUnderflow) else
    var last, curr := e.stack[|e.stack| - 2], Top(e);
    Swap(e.(stack := e.stack[..|e.stack| - 1]), curr, last)
  }

  /** Call-stack discipline. */
  ghost predicate Disciplined(e: Env) {
    && 1 <= |e.stack| <= CAPACITY
    && e.stack[0] == MAIN && MAIN !in e.made
    && (forall i, j :: 0 <= i < j < |e.stack| ==> e.stack[i] != e.stack[j])
    && (forall i :: 1 <= i < |e.stack| ==>
          e.stack[i] in e.made && e.stack[i] in e.resumer && e.resumer[e.stack[i]] == e.stack[i - 1])
    && e.ready == e.made + {MAIN} - {Top(e)}
  }

  lemma InitiallyDisciplined()
    ensures Disciplined(INITIAL)
  {
  }

  /** Resume fails exactly when the array is full; otherwise the routine runs on top of its
      resumer, whose registers are now the saved ones. */
  lemma ResumeDisciplined(e: Env, r: Rid)
    requires Disciplined(e) && r !in e.stack
    ensures Resume(e, r).Fault? <==> |e.stack| == 128
    ensures Resume(e, r).Ok? ==>
              var e' := Resume(e, r).value;
              Disciplined(e') && Top(e') == r && e'.stack == e.stack + [r] && Top(e) in e'.ready
                  && e'.made == e.made + {r}
  {
    if |e.stack| < CAPACITY {
      var e' := Resume(e, r).value;
      assert Top(e) in e.made + {MAIN};
      assert e'.ready == e'.made + {MAIN} - {r};
    }
  }

  /** Yield fails exactly in main; otherwise control goes back to the resumer, with the
      registers it had. */
  lemma YieldDisciplined(e: Env)
    requires Disciplined(e)
    ensures Yield(e).Fault? <==> Top(e) == MAIN
    ensures Yield(e).Ok? ==>
              var e' := Yield(e).value;
              && Disciplined(e') && e'.stack == e.stack[..|e.stack| - 1]
              && Top(e) in e.resumer && Top(e') == e.resumer[Top(e)]
              && Top(e') in e.ready && Top(e) in e'.ready && e'.made == e.made
  {
    if |e.stack| > 1 {
      assert Yield(e).Ok?;
      var e' := Yield(e).value;
      assert Top(e) in e.made;
      assert e'.ready == e'.made + {MAIN} - {Top(e')};
    }
  }

  /** A Yield takes back a Resume: same stack, and the resumed routine is ready again. */
  lemma YieldUndoesResume(e: Env, r: Rid)
    requires Disciplined(e) && r !in e.stack && |e.stack| < CAPACITY
    ensures Resume(e, r).Ok? && Yield(Resume(e, r).value).Ok?
    ensures var e' := Yield(Resume(e, r).value).value;
            e'.stack == e.stack && e'.made == e.made + {r} && e'.ready == e.ready + {r}
  {
    ResumeDisciplined(e, r);
    var e1 := Resume(e, r).value;
    YieldDisciplined(e1);
    assert e1.stack[..|e.stack|] == e.stack;
  }
}
