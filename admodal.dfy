/**
 * The rewarded-ad modal of components/AdModal.tsx: a progress counter that
 * an interval advances by one per tick until it reaches 100; the tick after
 * that clears the interval and reports completion. Unmounting the modal
 * clears the interval too. Ticks are discrete here (the 30 ms period is not
 * modelled); a tick delivered to a modal whose interval is cleared does
 * nothing, which is what a cleared interval amounts to.
 */
module AdModal {

  /** What the modal holds: the progress, whether the interval is still set, how often it completed. */
  datatype AdState = AdState(progress: int, running: bool, completions: nat)

  /** A freshly mounted modal (AdModal.tsx:10-13). */
  const INITIAL: AdState := AdState(0, true, 0)

  /**
   * One interval tick, the updater of AdModal.tsx:14-21: progress stays in
   * [0, 100] and never goes back, completion fires only on a tick that
   * finds 100 and clears the interval, and a cleared interval does nothing.
   */
  function Step(s: AdState): (t: AdState)
    ensures 0 <= s.progress <= 100 ==> s.progress <= t.progress <= 100
    ensures t.completions == s.completions + 1 <==> s.running && s.progress >= 100
    ensures t.completions != s.completions + 1 ==> t.completions == s.completions
    ensures t.completions > s.completions ==> !t.running
    ensures !s.running ==> t == s
  {
    if !s.running then s
    else if s.progress >= 100 then AdState(100, false, s.completions + 1)
    else s.(progress := s.progress + 1)
  }

  /** The state after `n` ticks of a freshly mounted modal that is never closed. */
  function Run(n: nat): AdState {
    if n == 0 then INITIAL else Step(Run(n - 1))
  }

  /**
   * After `n` ticks the progress is min(n, 100); the interval is still set
   * for the first 100 ticks and completion has fired exactly when `n`
   * exceeds 100, and then exactly once: the 101st tick fires it and clears
   * the interval, so later ticks change nothing.
   */
  lemma {:induction false} RunState(n: nat)
    ensures Run(n).progress == if n <= 100 then n else 100
    ensures Run(n).running <==> n <= 100
    ensures Run(n).completions == if n <= 100 then 0 else 1
  {
    if n > 0 {
      RunState(n - 1);
    }
  }

  /** Progress stays within [0, 100] and never decreases from one tick to the next. */
  lemma {:induction false} RunProgressMonotone(n: nat)
    ensures 0 <= Run(n).progress <= Run(n + 1).progress <= 100
  {
    RunState(n);
    RunState(n + 1);
  }

  /** The modal after closing: the interval is cleared and nothing else changes (AdModal.tsx:24). */
  function Close(s: AdState): (t: AdState)
    ensures !t.running && t.progress == s.progress && t.completions == s.completions
  {
    s.(running := false)
  }

  /** Once closed, no tick changes the modal: no further progress and no completion. */
  lemma {:induction false} ClosedStaysClosed(s: AdState, k: nat)
    ensures StepN(Close(s), k) == Close(s)
  {
    if k > 0 {
      ClosedStaysClosed(s, k - 1);
    }
  }

  /** `k` ticks from state `s`. */
  function StepN(s: AdState, k: nat): AdState {
    if k == 0 then s else Step(StepN(s, k - 1))
  }

  /**
   * The mounted modal as an object whose `progress` the interval updates in
   * place. `completions` counts the calls of `onComplete`.
   */
  class Modal {
    var progress: int
    var running: bool
    var completions: nat

    /** The modal's fields as a value. */
    function State(): AdState
      reads this
    {
      AdState(progress, running, completions)
    }

    /** Progress is a percentage, and completion fired at most once, clearing the interval. */
    ghost predicate Valid()
      reads this
    {
      0 <= progress <= 100 && completions <= 1 && (completions == 1 ==> !running && progress == 100)
    }

    /** Mounting: progress 0 and the interval set (AdModal.tsx:10-13). */
    constructor ()
      ensures State() == INITIAL && Valid()
    {
      progress := 0;
      running := true;
      completions := 0;
    }

    /**
     * One interval tick (AdModal.tsx:14-21); `completed` tells whether it
     * called `onComplete`.
     */
    method Tick() returns (completed: bool)
      requires Valid()
      modifies this
      ensures Valid()
      ensures State() == Step(old(State()))
      ensures completed <==> old(running) && old(progress) >= 100
      ensures old(progress) <= progress
    {
      completed := false;
      if running {
        if progress >= 100 {
          running := false;
          completions := completions + 1;
          completed := true;
          progress := 100;
        } else {
          progress := progress + 1;
        }
      }
    }

    /** Unmounting clears the interval (AdModal.tsx:24). */
    method Unmount()
      requires Valid()
      modifies this
      ensures Valid()
      ensures State() == Close(old(State()))
    {
      running := false;
    }
  }
}
