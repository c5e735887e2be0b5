/** `Routine_t` and `RoutineEnv_t` of `routine.cpp` as objects; they refine `Routines.Env`. */
module RoutineEnv {
  import opened Wrappers
  import opened Routines

  class Routine {
    const id: Rid
    const isMain: bool
    var start: bool // start_: Coctx_make has been called
    var end: bool

    constructor (id: Rid, isMain: bool)
      ensures this.id == id && this.isMain == isMain && !start && !end
    {
      this.id, this.isMain := id, isMain;
      start, end := false, false;
    }
  }

  class RoutineEnv {
    const callStack: array<Routine?>
    var callStackSize: nat
    ghost var all: set<Routine>
    ghost var env: Env

    ghost predicate Valid()
      reads this, callStack, all
    {
      && callStack.Length == CAPACITY && |env.stack| == callStackSize <= CAPACITY
      && (forall i :: 0 <= i < callStackSize ==>
            callStack[i] != null && callStack[i] in all && callStack[i].id == env.stack[i])
      && (forall r, q :: r in all && q in all && r.id == q.id ==> r == q)
      && (forall r :: r in all ==> (r.start <==> r.id in env.made))
    }

    /** init_curr_thread_env. */
    constructor ()
      ensures Valid() && fresh(callStack) && fresh(all) && env == INITIAL
    {
      var self := new Routine(MAIN, true);
      callStack := new Routine?[CAPACITY](_ => null);
      callStackSize := 1;
      all, env := {self}, INITIAL;
      new;
      callStack[0] := self;
    }

    /** A new Routine_t of this environment. */
    method Create(id: Rid) returns (r: Routine)
      requires Valid() && (forall q :: q in all ==> q.id != id) && id !in env.made
      modifies this`all
      ensures Valid() && fresh(r) && r.id == id && !r.isMain && !r.start && !r.end
      ensures all == old(all) + {r} && env == old(env)
    {
      r := new Routine(id, false);
      all := all + {r};
    }

    /** get_curr_routine. */
    method CurrentRoutine() returns (r: Routine)
      requires Valid() && env.stack != []
      ensures r in all && r.id == Top(env)
    {
      r := callStack[callStackSize - 1];
    }

    /** Routine_t::Resume. The array access and the swap are in order when Routines.Resume does
        not fail; the indices and flags are then those of its result. */
    method Resume(r: Routine)
      requires Valid() && r in all && Routines.Resume(env, r.id).Ok?
      modifies this, callStack, r`start
      ensures Valid() && all == old(all) && Ok(env) == Routines.Resume(old(env), r.id)
      ensures r.start && callStackSize == old(callStackSize) + 1 && callStack[callStackSize - 1] == r
    {
      env := Routines.Resume(env, r.id).value;
      if !r.start {
        r.start := true;
      }
      callStack[callStackSize] := r;
      callStackSize := callStackSize + 1;
    }

    /** yield_env. */
    method Yield() returns (last: Routine)
      requires Valid() && Routines.Yield(env).Ok?
      modifies this`callStackSize, this`env
      ensures Valid() && Ok(env) == Routines.Yield(old(env))
      ensures last in all && last.id == Top(env) && callStackSize == old(callStackSize) - 1
    {
      last := callStack[callStackSize - 2];
      env := Routines.Yield(env).value;
      callStackSize := callStackSize - 1;
    }

    /** The end of RoutineFunc, once the routine's function has returned. */
    method Finish() returns (last: Routine)
      requires Valid() && env.stack != [] && Routines.Yield(env).Ok?
      modifies this`callStackSize, this`env, callStack[callStackSize - 1]
      ensures Valid() && Ok(env) == Routines.Yield(old(env))
      ensures last.id == Top(env) && old(callStack[callStackSize - 1]).end
    {
      callStack[callStackSize - 1].end := true;
      last := Yield();
    }
  }
}
