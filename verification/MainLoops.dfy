/**
 Which main loop is current on a thread (glib/pygmainloop.c): a thread-local key holds it, and running a
 loop saves the key's value and puts it back.
 */
module MainLoops {
  import opened Sequences
  import opened Wrappers

  type Loop = nat

  /** A run of a loop, and the runs started from within it, in order. */
  datatype Run = Run(loop: Loop, inner: seq<Run>)

  /** The key of one thread, and the references of all loops. */
  datatype Thread = Thread(key: Option<Loop>, refs: map<Loop, nat>)

  function Refs(t: Thread, l: Loop): nat {
    if l in t.refs then t.refs[l] else 0
  }

  /** How many frames of the stack run the loop `l`. */
  function Frames(stack: seq<Loop>, l: Loop): nat {
    if stack == [] then 0 else Frames(stack[..|stack| - 1], l) + if stack[|stack| - 1] == l then 1 else 0
  }

  function Innermost(stack: seq<Loop>, base: Thread): Option<Loop> {
    if stack == [] then base.key else Some(stack[|stack| - 1])
  }

  /** The frames at a moment when control reaches a loop, and the key then. */
  datatype Moment = Moment(frames: seq<Loop>, key: Option<Loop>)

  /** What is to be seen while a loop runs: itself as the current loop when it starts, and again whenever
      a run from within it has returned. */
  ghost function Moments(run: Run, stack: seq<Loop>, base: Thread): seq<Moment>
    decreases run, 0
  {
    [Moment(stack + [run.loop], Some(run.loop))] + MomentsAll(run.inner, stack + [run.loop], base)
  }

  ghost function MomentsAll(runs: seq<Run>, stack: seq<Loop>, base: Thread): seq<Moment>
    decreases runs
  {
    if runs == [] then [] else
    MomentsAll(runs[..|runs| - 1], stack, base) + Moments(runs[|runs| - 1], stack, base)
    + [Moment(stack, Innermost(stack, base))]
  }

  /** With these frames active on a thread that started as `base`: the current loop is that of the
      innermost frame, and each loop has one reference more for each frame that runs it. */
  ghost predicate Active(t: Thread, base: Thread, stack: seq<Loop>) {
    && t.key == Innermost(stack, base)
    && forall l: Loop :: Refs(t, l) == Refs(base, l) + Frames(stack, l)
  }

  class MainLoopThread {
    var key: Option<Loop>
    var refs: map<Loop, nat>
    ghost var seen: seq<Moment>

    constructor (refs: map<Loop, nat>)
      ensures Now() == Thread(None, refs) && seen == []
    {
      key, this.refs, seen := None, refs, [];
    }

    function Now(): Thread
      reads this
    {
      Thread(key, refs)
    }

    /** PyThread_set_key_value: a key that has a value keeps it. */
    method SetKeyValue(l: Loop)
      modifies `key
      ensures key == if old(key).Some? then old(key) else Some(l)
    {
      if key.None? {
        key := Some(l);
      }
    }

    method DeleteKeyValue()
      modifies `key
      ensures key == None
    {
      key := None;
    }

    method Ref(l: Loop)
      modifies `refs
      ensures refs == old(refs)[l := old(Refs(Now(), l)) + 1]
    {
      refs := refs[l := Refs(Now(), l) + 1];
    }

    method Unref(l: Loop)
      requires Refs(Now(), l) > 0
      modifies `refs
      ensures refs == old(refs)[l := old(Refs(Now(), l)) - 1]
    {
      refs := refs[l := Refs(Now(), l) - 1];
    }

    method SaveCurrent(l: Loop) returns (previous: Option<Loop>)
      modifies `key, `refs
      ensures previous == old(key) && key == Some(l)
      ensures refs == old(refs)[l := old(Refs(Now(), l)) + 1]
    {
      previous := key;
      DeleteKeyValue();
      Ref(l);
      SetKeyValue(l);
    }

    method RestoreCurrent(previous: Option<Loop>)
      requires key.Some? ==> Refs(Now(), key.value) > 0
      modifies `key, `refs
      ensures key == previous
      ensures refs == match old(key) case None => old(refs) case Some(l) => old(refs)[l := old(Refs(Now(), l)) - 1]
    {
      if key.Some? {
        Unref(key.value);
      }
      DeleteKeyValue();
      if previous.Some? {
        SetKeyValue(previous.value);
      }
    }

    ghost method See(stack: seq<Loop>)
      modifies `seen
      ensures seen == old(seen) + [Moment(stack, key)]
    {
      seen := seen + [Moment(stack, key)];
    }

    /** _wrap_g_main_loop_run: whenever control is in the loop it is the current one, with one more frame,
        and whatever runs within it, everything is as before when it returns. */
    method RunLoop(run: Run, ghost base: Thread, ghost stack: seq<Loop>)
      requires Active(Now(), base, stack)
      modifies this
      ensures Active(Now(), base, stack)
      ensures seen == old(seen) + Moments(run, stack, base)
      decreases run
    {
      var previous := SaveCurrent(run.loop);
      Entered(base, stack, run.loop);
      See(stack + [run.loop]);
      RunAll(run.inner, base, stack + [run.loop]);
      assert Frames(stack + [run.loop], run.loop) > 0 by { Entered(base, stack, run.loop); }
      Entered(base, stack, run.loop);
      RestoreCurrent(previous);
    }

    method RunAll(runs: seq<Run>, ghost base: Thread, ghost stack: seq<Loop>)
      requires Active(Now(), base, stack)
      modifies this
      ensures Active(Now(), base, stack)
      ensures seen == old(seen) + MomentsAll(runs, stack, base)
      decreases runs
    {
      for i := 0 to |runs|
        invariant Active(Now(), base, stack)
        invariant seen == old(seen) + MomentsAll(runs[..i], stack, base)
      {
        NextPrefix(runs, i);
        RunLoop(runs[i], base, stack);
        See(stack);
      }
      Whole(runs);
    }

    /** Any well-nested series of runs leaves the thread as it was. */
    method RunOutermost(runs: seq<Run>)
      modifies this
      ensures key == old(key) && forall l: Loop :: Refs(Now(), l) == Refs(old(Now()), l)
      ensures seen == old(seen) + MomentsAll(runs, [], old(Now()))
    {
      ghost var base := Now();
      RunAll(runs, base, []);
    }
  }

  lemma Entered(base: Thread, stack: seq<Loop>, l: Loop)
    ensures forall m: Loop :: Frames(stack + [l], m) == Frames(stack, m) + if m == l then 1 else 0
  {
    assert (stack + [l])[..|stack|] == stack;
  }

  ghost predicate ShowInnermost(moments: seq<Moment>, base: Thread) {
    forall m :: m in moments ==> m.key == Innermost(m.frames, base)
  }

  /** Whatever is seen, at whatever depth: the current loop is that of the innermost frame. */
  lemma {:induction false} InnermostIsCurrent(runs: seq<Run>, stack: seq<Loop>, base: Thread)
    ensures ShowInnermost(MomentsAll(runs, stack, base), base)
    decreases runs
  {
    if runs != [] {
      var before, last := runs[..|runs| - 1], runs[|runs| - 1];
      InnermostIsCurrent(before, stack, base);
      InnermostIsCurrent(last.inner, stack + [last.loop], base);
      assert ShowInnermost([Moment(stack + [last.loop], Some(last.loop))], base);
      assert ShowInnermost([Moment(stack, Innermost(stack, base))], base);
    }
  }
}
