/** The breathing metronome that unlocks the dashboard: six held breaths
    (press, hold, release on the circle) unlock the screen. Instruction
    texts, CSS classes and timers are display effects and are not modelled;
    the unlock itself is the `unlock` signal a release returns. */
module Metronome {

  /** The most breaths counted; reaching it schedules the unlock. */
  const Goal: nat := 6

  /** The pointer gestures the circle listens to. */
  datatype Gesture = Press | Release | Leave

  /** The two closure variables `cycles` and `isBreathing`. */
  datatype Breath = Breath(cycles: nat, breathing: bool)

  const Start: Breath := Breath(0, false)

  /** What every reachable state satisfies: at most six breaths, and no
      breath in progress once all six are done. */
  predicate Reachable(s: Breath) {
    s.cycles <= Goal && (s.cycles == Goal ==> !s.breathing)
  }

  /** One gesture: the new state and whether the unlock was scheduled. A
      press starts a breath unless all six are done; a release ends a breath
      in progress and counts it; leaving the circle while breathing acts as
      a release. */
  function Step(s: Breath, g: Gesture): (r: (Breath, bool))
    ensures Reachable(s) ==> Reachable(r.0)
    ensures s.cycles >= Goal ==> r == (s, false)
    ensures r.0.cycles != s.cycles ==> s.breathing && g != Press && r.0.cycles == s.cycles + 1
    ensures r.0.breathing && !s.breathing ==> g == Press
    ensures r.1 <==> s.cycles + 1 == Goal && r.0.cycles == Goal
  {
    match g
    case Press =>
      if s.cycles >= Goal then (s, false) else (Breath(s.cycles, true), false)
    case Release => EndBreath(s)
    case Leave => if s.breathing then EndBreath(s) else (s, false)
  }

  /** The release of a breath in progress, counted; otherwise nothing. */
  function EndBreath(s: Breath): (Breath, bool) {
    if !s.breathing || s.cycles >= Goal then (s, false)
    else
      var next := Breath(s.cycles + 1, false);
      (next, next.cycles >= Goal)
  }

  /** The state after a sequence of gestures. */
  function Run(s: Breath, gs: seq<Gesture>): Breath
    decreases |gs|
  {
    if gs == [] then s else Run(Step(s, gs[0]).0, gs[1..])
  }

  /** How many times the unlock was scheduled along a sequence of gestures. */
  function Unlocks(s: Breath, gs: seq<Gesture>): nat
    decreases |gs|
  {
    if gs == [] then 0
    else (if Step(s, gs[0]).1 then 1 else 0) + Unlocks(Step(s, gs[0]).0, gs[1..])
  }

  /** No sequence of gestures counts more than six breaths. */
  lemma {:induction false} RunReachable(s: Breath, gs: seq<Gesture>)
    requires Reachable(s)
    ensures Reachable(Run(s, gs))
    decreases |gs|
  {
    if gs != [] {
      RunReachable(Step(s, gs[0]).0, gs[1..]);
    }
  }

  /** The count never goes down. */
  lemma {:induction false} RunMonotone(s: Breath, gs: seq<Gesture>)
    ensures s.cycles <= Run(s, gs).cycles
    decreases |gs|
  {
    if gs != [] {
      RunMonotone(Step(s, gs[0]).0, gs[1..]);
    }
  }

  /** Once six breaths are done every gesture is ignored. */
  lemma {:induction false} DoneIsFinal(s: Breath, gs: seq<Gesture>)
    requires s.cycles >= Goal
    ensures Run(s, gs) == s && Unlocks(s, gs) == 0
    decreases |gs|
  {
    if gs != [] {
      DoneIsFinal(s, gs[1..]);
    }
  }

  /** From any reachable state short of the goal, the unlock is scheduled
      exactly once if the gestures reach six breaths and never otherwise. */
  lemma {:induction false} UnlockOnce(s: Breath, gs: seq<Gesture>)
    requires Reachable(s) && s.cycles < Goal
    ensures Unlocks(s, gs) == if Run(s, gs).cycles == Goal then 1 else 0
    decreases |gs|
  {
    if gs != [] {
      var (next, unlock) := Step(s, gs[0]);
      if unlock {
        DoneIsFinal(next, gs[1..]);
      } else {
        UnlockOnce(next, gs[1..]);
      }
    }
  }

  /** A fresh metronome schedules the unlock at most once, and exactly when
      the sixth breath is released. */
  lemma UnlockFromStart(gs: seq<Gesture>)
    ensures Unlocks(Start, gs) <= 1
    ensures Unlocks(Start, gs) == 1 <==> Run(Start, gs).cycles == Goal
  {
    UnlockOnce(Start, gs);
  }

  /** The handlers' shared state. Re-locking the dashboard starts over with
      a fresh instance. */
  class Breather {
    var cycles: nat
    var breathing: bool

    function State(): Breath
      reads this
    {
      Breath(cycles, breathing)
    }

    ghost predicate Valid()
      reads this
    {
      Reachable(State())
    }

    constructor ()
      ensures State() == Start && Valid()
    {
      cycles := 0;
      breathing := false;
    }

    /** The `mousedown` handler. */
    method Press()
      requires Valid()
      modifies this
      ensures State() == Step(old(State()), Gesture.Press).0 && Valid()
    {
      if cycles >= Goal {
        return;
      }
      breathing := true;
    }

    /** The `mouseup` handler; `unlock` is true when it schedules the unlock. */
    method Release() returns (unlock: bool)
      requires Valid()
      modifies this
      ensures (State(), unlock) == Step(old(State()), Gesture.Release) && Valid()
    {
      if !breathing || cycles >= Goal {
        return false;
      }
      breathing := false;
      cycles := cycles + 1;
      unlock := cycles >= Goal;
    }

    /** The `mouseleave` handler, which replays a release while breathing. */
    method Leave() returns (unlock: bool)
      requires Valid()
      modifies this
      ensures (State(), unlock) == Step(old(State()), Gesture.Leave) && Valid()
    {
      unlock := false;
      if breathing {
        unlock := Release();
      }
    }
  }
}
