/**
 * The guided breathing exercise (src/components/BreathingExercise.tsx): a
 * phase index cycling over Inhale, Hold and Exhale, a count of completed
 * cycles and a running flag. Each `setTimeout` firing is one discrete tick;
 * audio playback is not modelled.
 */
module Breathing {

  datatype Phase = Inhale | Hold | Exhale

  /** `PHASES`, in the order the exercise walks through them. */
  const PHASES: seq<Phase> := [Inhale, Hold, Exhale]

  /** The number of cycles a session runs, as initialised by the component. */
  const DEFAULT_TOTAL_CYCLES: nat := 5

  /** `DURATIONS`: how long each phase lasts, in milliseconds. */
  function Duration(p: Phase): (ms: nat)
    ensures ms > 0
  {
    match p
    case Inhale => 4000
    case Hold => 4000
    case Exhale => 4000
  }

  /** Total time of the given phases, in milliseconds. */
  function SumDurations(ps: seq<Phase>): (ms: nat)
    ensures ms == 4000 * |ps|
  {
    if ps == [] then 0 else Duration(ps[0]) + SumDurations(ps[1..])
  }

  /** One breath cycle (Inhale, Hold, Exhale) takes 12 seconds. */
  lemma CycleTakesTwelveSeconds()
    ensures SumDurations(PHASES) == 12000
  {
  }

  /** The phase that follows `p` in the exercise. */
  function Succ(p: Phase): (q: Phase)
    ensures q != p
  {
    match p
    case Inhale => Hold
    case Hold => Exhale
    case Exhale => Inhale
  }

  /** Three successive phases bring the exercise back to where it was, and
      the successor follows the order of `PHASES`. */
  lemma SuccCycles(p: Phase)
    ensures Succ(Succ(Succ(p))) == p
    ensures forall i :: 0 <= i < |PHASES| ==> Succ(PHASES[i]) == PHASES[(i + 1) % |PHASES|]
  {
  }

  /** The component's state: `phaseIndex`, `cycles`, `running`. */
  datatype State = State(phaseIndex: nat, cycles: nat, running: bool)

  /** What every reachable state satisfies for a session of `total` cycles. */
  ghost predicate ValidState(s: State, total: nat)
  {
    s.phaseIndex < |PHASES| && s.cycles <= total && (s.running ==> s.cycles < total)
  }

  /** The auto-stop effect: a running session that has done its cycles stops. */
  function AutoStop(s: State, total: nat): (r: State)
    ensures r.phaseIndex == s.phaseIndex && r.cycles == s.cycles
    ensures r.running <==> s.running && s.cycles < total
  {
    if s.running && s.cycles >= total then s.(running := false) else s
  }

  /** One timer firing followed by the auto-stop effect. No timer runs while
      the session is stopped, so then nothing changes. */
  function TickStep(s: State, total: nat): (r: State)
    ensures !s.running ==> r == s
    ensures s.running ==> r.phaseIndex == (s.phaseIndex + 1) % |PHASES|
    ensures s.running ==> r.cycles == if r.phaseIndex == 0 then s.cycles + 1 else s.cycles
    ensures s.running ==> (r.running <==> r.cycles < total)
    ensures ValidState(s, total) ==> ValidState(r, total)
  {
    if !s.running then s
    else
      var next := (s.phaseIndex + 1) % |PHASES|;
      AutoStop(State(next, if next == 0 then s.cycles + 1 else s.cycles, true), total)
  }

  /** `handleStart` followed by the auto-stop effect. */
  function StartStep(total: nat): (r: State)
    ensures ValidState(r, total)
    ensures r.phaseIndex == 0 && r.cycles == 0
    ensures r.running <==> total > 0
  {
    AutoStop(State(0, 0, true), total)
  }

  /** `handleStop`. */
  function StopStep(s: State): (r: State)
    ensures !r.running && r.phaseIndex == s.phaseIndex && r.cycles == s.cycles
  {
    s.(running := false)
  }

  /** The state after `n` ticks. */
  function Ticks(s: State, total: nat, n: nat): (r: State)
    ensures ValidState(s, total) ==> ValidState(r, total)
  {
    if n == 0 then s else TickStep(Ticks(s, total, n - 1), total)
  }

  /** Milliseconds the timers of the first `n` ticks wait: a running state
      waits for the duration of its phase, a stopped one sets no timer. */
  function Elapsed(s: State, total: nat, n: nat): nat
    requires ValidState(s, total)
  {
    if n == 0 then 0
    else
      var before := Ticks(s, total, n - 1);
      Elapsed(s, total, n - 1) + if before.running then Duration(PHASES[before.phaseIndex]) else 0
  }

  /** A running tick moves the phase on display to the next one; a stopped
      one keeps it. */
  lemma TickShowsNextPhase(s: State, total: nat)
    requires ValidState(s, total)
    ensures PHASES[TickStep(s, total).phaseIndex] ==
            if s.running then Succ(PHASES[s.phaseIndex]) else PHASES[s.phaseIndex]
  {
  }

  /** A stopped session stays as it is, however many ticks pass. */
  lemma {:induction false} StoppedIsStable(s: State, total: nat, n: nat)
    requires !s.running
    ensures Ticks(s, total, n) == s
  {
    if n > 0 {
      StoppedIsStable(s, total, n - 1);
    }
  }

  /** From Start, tick `k` of the first `3 * total` is in phase `k % 3` of
      cycle `k / 3` and still running; after exactly `3 * total` ticks the
      session has completed `total` cycles and stopped. */
  lemma {:induction false} RunFromStart(total: nat, k: nat)
    requires total > 0 && k <= 3 * total
    ensures Ticks(StartStep(total), total, k) ==
            if k < 3 * total then State(k % 3, k / 3, true) else State(0, total, false)
  {
    if k > 0 {
      RunFromStart(total, k - 1);
      var j := k - 1;
      assert (j % 3 + 1) % 3 == k % 3;
      assert k / 3 == if k % 3 == 0 then j / 3 + 1 else j / 3;
      assert k / 3 < total <==> k < 3 * total;
    }
  }

  /** Every running tick waits 4000 ms, so `k` ticks from Start take `4000 * k` ms. */
  lemma {:induction false} ElapsedFromStart(total: nat, k: nat)
    requires total > 0 && k <= 3 * total
    ensures Elapsed(StartStep(total), total, k) == 4000 * k
  {
    if k > 0 {
      ElapsedFromStart(total, k - 1);
      RunFromStart(total, k - 1);
    }
  }

  /** With the default five cycles, the session stops after exactly 15 ticks,
      i.e. after five 12-second cycles. */
  lemma DefaultSession()
    ensures forall k :: 0 <= k < 15 ==> Ticks(StartStep(DEFAULT_TOTAL_CYCLES), DEFAULT_TOTAL_CYCLES, k).running
    ensures !Ticks(StartStep(DEFAULT_TOTAL_CYCLES), DEFAULT_TOTAL_CYCLES, 15).running
    ensures Elapsed(StartStep(DEFAULT_TOTAL_CYCLES), DEFAULT_TOTAL_CYCLES, 15) == 5 * SumDurations(PHASES)
  {
    forall k | 0 <= k < 15
      ensures Ticks(StartStep(DEFAULT_TOTAL_CYCLES), DEFAULT_TOTAL_CYCLES, k).running
    {
      RunFromStart(DEFAULT_TOTAL_CYCLES, k);
    }
    RunFromStart(DEFAULT_TOTAL_CYCLES, 15);
    ElapsedFromStart(DEFAULT_TOTAL_CYCLES, 15);
    CycleTakesTwelveSeconds();
  }

  /** The component itself, with its three state variables and the session
      length `totalCycles`, which nothing changes after initialisation. */
  class BreathingExercise {
    var phaseIndex: nat
    var cycles: nat
    var running: bool
    var totalCycles: nat

    function Current(): State
      reads this
    {
      State(phaseIndex, cycles, running)
    }

    ghost predicate Valid()
      reads this
    {
      ValidState(Current(), totalCycles)
    }

    /** The phase on display. */
    function CurrentPhase(): Phase
      reads this
      requires Valid()
    {
      PHASES[phaseIndex]
    }

    /** Mounting: phase Inhale, no cycles, not running, five cycles per session. */
    constructor ()
      ensures Valid()
      ensures phaseIndex == 0 && cycles == 0 && !running && totalCycles == DEFAULT_TOTAL_CYCLES
    {
      phaseIndex, cycles, running := 0, 0, false;
      totalCycles := DEFAULT_TOTAL_CYCLES;
    }

    /** The auto-stop effect. */
    method AutoStopEffect()
      modifies this`running
      ensures old(Valid()) ==> Valid()
      ensures Current() == AutoStop(old(Current()), totalCycles)
    {
      if running && cycles >= totalCycles {
        running := false;
      }
    }

    /** One firing of the phase timer (set only while running), then the
        auto-stop effect. */
    method Tick()
      requires Valid()
      modifies this`phaseIndex, this`cycles, this`running
      ensures Valid() && totalCycles == old(totalCycles)
      ensures Current() == TickStep(old(Current()), totalCycles)
      ensures CurrentPhase() == if old(running) then Succ(old(CurrentPhase())) else old(CurrentPhase())
    {
      if running {
        var nextIndex := (phaseIndex + 1) % |PHASES|;
        phaseIndex := nextIndex;
        if nextIndex == 0 {
          cycles := cycles + 1;
        }
        AutoStopEffect();
      }
    }

    /** `handleStart`, then the auto-stop effect. */
    method Start()
      modifies this`phaseIndex, this`cycles, this`running
      ensures Valid() && totalCycles == old(totalCycles)
      ensures Current() == StartStep(totalCycles)
    {
      phaseIndex := 0;
      cycles := 0;
      running := true;
      AutoStopEffect();
    }

    /** `handleStop`. */
    method Stop()
      requires Valid()
      modifies this`running
      ensures Valid()
      ensures Current() == StopStep(old(Current()))
    {
      running := false;
    }
  }

  /** A client scenario: one full cycle, then Stop freezes the state. */
  method SessionScenario()
  {
    var b := new BreathingExercise();
    b.Start();
    assert b.running && b.CurrentPhase() == Inhale;
    b.Tick();
    assert b.CurrentPhase() == Hold;
    b.Tick();
    b.Tick();
    assert b.phaseIndex == 0 && b.cycles == 1 && b.running;
    b.Tick();
    b.Stop();
    assert b.phaseIndex == 1 && b.cycles == 1 && !b.running;
    b.Tick();
    assert b.phaseIndex == 1 && b.cycles == 1 && !b.running;
  }
}
