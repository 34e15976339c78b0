/**
 * A model of the CD4066_GATE netlist device: one channel of a CMOS bilateral
 * analog switch, represented as a resistor whose value is chosen from the
 * control voltage relative to the supply rails.
 *
 * Voltages and resistances are exact reals. The solver services the device
 * calls (the branch `update()`, `set_R`, `schedule_solve_after`) are recorded
 * as events on a ghost trace, so their order and number can be stated.
 */
module CD4066 {

  datatype Option<T> = None | Some(value: T)

  /** Default value of the BASER parameter: on-resistance at a 5 V supply. */
  const DefaultBaseR: real := 270.0
  /** Supply span the BASER parameter is calibrated against. */
  const NominalSpan: real := 5.0
  /** The control input reads as low below this fraction of the span ... */
  const LowFraction: real := 0.45
  /** ... and as high above this fraction. */
  const HighFraction: real := 0.55
  /** Delay of the re-solve request issued after a resistance change. */
  const ResolveDelayNs: nat := 1
  /**
   * Whether the resistor's net belongs to a time-stepping solver. The source
   * has the real query commented out and tests a constant true instead, so
   * only the update-then-set order is ever taken.
   */
  const TimestepNet: bool := true

  /** One call the device makes into the resistor branch or the solver. */
  datatype Event =
    | SyncBranch                    // m_R.update()
    | SetResistance(ohms: real)     // m_R.set_R(ohms)
    | ScheduleSolveAfter(ns: nat)   // m_R.m_P.schedule_solve_after(ns)

  /** What the device reads on one evaluation: both rails, the control pin and the solver's gmin. */
  datatype Sample = Sample(vdd: real, vss: real, ctl: real, gmin: real)
  {
    /** The solver guarantees gmin > 0; the code divides by the span unguarded. */
    predicate WellFormed() { vdd - vss > 0.0 && gmin > 0.0 }

    function Span(): real { vdd - vss }
    function Low(): real { LowFraction * Span() }
    function High(): real { HighFraction * Span() }
    /** Control voltage measured from the negative rail. */
    function Relative(): real { ctl - vss }
  }

  /** The resistor value and the calls issued so far. */
  datatype GateState = GateState(r: real, trace: seq<Event>)

  /** How one evaluation classifies the control input. */
  datatype Decision = Open | Close | Hold

  // ---------------------------------------------------------------------
  // Resistances

  /** The "off" resistance: the largest the solver tolerates, the reciprocal of gmin. */
  function OffResistance(gmin: real): (r: real)
    requires gmin > 0.0
    ensures r > 0.0 && r * gmin == 1.0
  {
    1.0 / gmin
  }

  /** The "on" resistance: BASER calibrated at 5 V, scaled inversely with the supply span. */
  function OnResistance(baseR: real, span: real): (r: real)
    requires span > 0.0
    ensures r * span == baseR * NominalSpan
    ensures baseR > 0.0 <==> r > 0.0
  {
    baseR * NominalSpan / span
  }

  lemma OnResistanceHalvesWhenSpanDoubles(baseR: real, span: real)
    requires span > 0.0
    ensures OnResistance(baseR, 2.0 * span) * 2.0 == OnResistance(baseR, span)
  {
  }

  /** For a positive BASER, a wider supply span gives a strictly lower on-resistance. */
  lemma OnResistanceDecreasing(baseR: real, span1: real, span2: real)
    requires baseR > 0.0 && 0.0 < span1 < span2
    ensures OnResistance(baseR, span2) < OnResistance(baseR, span1)
  {
    var a, b := OnResistance(baseR, span2), OnResistance(baseR, span1);
    assert a > 0.0 && a * span2 == b * span1;
    assert a * (span2 - span1) > 0.0;
    assert (b - a) * span1 > 0.0;
  }

  lemma DefaultOnResistanceAtFiveVolts()
    ensures OnResistance(DefaultBaseR, 5.0) == 270.0
    ensures OnResistance(DefaultBaseR, 10.0) == 135.0
  {
  }

  // ---------------------------------------------------------------------
  // Classification and target resistance

  /** The 45%/55% window: below it the switch opens, above it it closes, inside it holds. */
  function Classify(s: Sample): (d: Decision)
    requires s.WellFormed()
    ensures d == Open <==> s.Relative() < s.Low()
    ensures d == Close <==> s.High() < s.Relative()
  {
    if s.Relative() < s.Low() then Open
    else if s.Relative() > s.High() then Close
    else Hold
  }

  /** The resistance the evaluation would write, or None inside the window. */
  function Target(s: Sample, baseR: real): (t: Option<real>)
    requires s.WellFormed()
    ensures t.Some? <==> Classify(s) != Hold
    ensures t.Some? ==> t.value == OffResistance(s.gmin) || t.value == OnResistance(baseR, s.Span())
  {
    match Classify(s)
    case Open => Some(OffResistance(s.gmin))
    case Close => Some(OnResistance(baseR, s.Span()))
    case Hold => None
  }

  /** Whether the evaluation writes: a target exists and passes the `R > 0` test. */
  predicate Writes(s: Sample, baseR: real)
    requires s.WellFormed()
    ensures Writes(s, baseR) <==> Classify(s) == Open || (Classify(s) == Close && baseR > 0.0)
  {
    Target(s, baseR).Some? && Target(s, baseR).value > 0.0
  }

  /** The calls made to apply a new resistance, in the order the net kind dictates. */
  function WriteBack(timestep: bool, ohms: real): (events: seq<Event>)
    ensures |events| == (if timestep then 3 else 2)
    ensures timestep ==>
      events[0] == SyncBranch && events[1] == SetResistance(ohms) && events[2] == ScheduleSolveAfter(ResolveDelayNs)
    ensures !timestep ==> events[0] == SetResistance(ohms) && events[1] == SyncBranch
  {
    if timestep then [SyncBranch, SetResistance(ohms), ScheduleSolveAfter(ResolveDelayNs)]
    else [SetResistance(ohms), SyncBranch]
  }

  /** The branch is synchronised before the new value is set exactly on a time-stepping net. */
  lemma WriteBackSyncFirstIffTimestep(timestep: bool, ohms: real)
    ensures var events := WriteBack(timestep, ohms);
      forall i, j :: 0 <= i < |events| && 0 <= j < |events| && events[i] == SyncBranch && events[j] == SetResistance(ohms)
        ==> (i < j <==> timestep)
  {
  }

  // ---------------------------------------------------------------------
  // State transitions

  /** NETLIB_RESET: set the resistor to the off value. */
  function ResetStep(st: GateState, gmin: real): (st': GateState)
    requires gmin > 0.0
    ensures st'.r * gmin == 1.0
    ensures st'.trace == st.trace + [SetResistance(st'.r)]
  {
    GateState(OffResistance(gmin), st.trace + [SetResistance(OffResistance(gmin))])
  }

  /** NETLIB_UPDATE: write the target resistance if there is a positive one, else change nothing. */
  function UpdateStep(st: GateState, s: Sample, baseR: real): (st': GateState)
    requires s.WellFormed()
    ensures st' == st || (st'.r > 0.0 && |st'.trace| == |st.trace| + 3)
  {
    if Writes(s, baseR) then
      var ohms := Target(s, baseR).value;
      GateState(ohms, st.trace + WriteBack(TimestepNet, ohms))
    else st
  }

  /** `n` evaluations in a row with the same inputs. */
  function UpdateRepeated(st: GateState, s: Sample, baseR: real, n: nat): GateState
    requires s.WellFormed()
    decreases n
  {
    if n == 0 then st else UpdateRepeated(UpdateStep(st, s, baseR), s, baseR, n - 1)
  }

  /** Number of re-solve requests in a trace. */
  function ScheduleCount(trace: seq<Event>): nat
  {
    if trace == [] then 0
    else ScheduleCount(trace[..|trace| - 1]) + (if trace[|trace| - 1].ScheduleSolveAfter? then 1 else 0)
  }

  // ---------------------------------------------------------------------
  // Properties of reset

  /** Reset yields the off value whatever the prior resistance, and a second reset changes it no further. */
  lemma ResetIdempotent(st: GateState, other: GateState, gmin: real)
    requires gmin > 0.0
    ensures ResetStep(st, gmin).r == ResetStep(other, gmin).r == OffResistance(gmin)
    ensures ResetStep(ResetStep(st, gmin), gmin).r == ResetStep(st, gmin).r
  {
  }

  // ---------------------------------------------------------------------
  // Properties of one evaluation

  /** Below 45% of the span the resistance becomes 1/gmin, whatever it was. */
  lemma UpdateBelowLowOpens(st: GateState, s: Sample, baseR: real)
    requires s.WellFormed() && s.ctl - s.vss < LowFraction * (s.vdd - s.vss)
    ensures UpdateStep(st, s, baseR).r * s.gmin == 1.0
    ensures UpdateStep(st, s, baseR).trace == st.trace + WriteBack(TimestepNet, 1.0 / s.gmin)
  {
  }

  /** Above 55% of the span, with a positive BASER, the resistance becomes BASER*5/span, whatever it was. */
  lemma UpdateAboveHighCloses(st: GateState, s: Sample, baseR: real)
    requires s.WellFormed() && s.ctl - s.vss > HighFraction * (s.vdd - s.vss) && baseR > 0.0
    ensures UpdateStep(st, s, baseR).r * (s.vdd - s.vss) == baseR * 5.0
    ensures UpdateStep(st, s, baseR).trace == st.trace + WriteBack(TimestepNet, baseR * 5.0 / (s.vdd - s.vss))
  {
  }

  /** Above 55% with BASER <= 0 the `R > 0` test fails: nothing is written or scheduled. */
  lemma UpdateNonPositiveBaseRIgnored(st: GateState, s: Sample, baseR: real)
    requires s.WellFormed() && s.ctl - s.vss > HighFraction * (s.vdd - s.vss) && baseR <= 0.0
    ensures UpdateStep(st, s, baseR) == st
  {
  }

  /** Inside the window nothing changes: same resistance and no call at all. */
  lemma UpdateInBandHolds(st: GateState, s: Sample, baseR: real)
    requires s.WellFormed()
    requires LowFraction * (s.vdd - s.vss) <= s.ctl - s.vss <= HighFraction * (s.vdd - s.vss)
    ensures UpdateStep(st, s, baseR) == st
  {
  }

  /** The resistance never becomes zero or negative. */
  lemma UpdateKeepsPositive(st: GateState, s: Sample, baseR: real)
    requires s.WellFormed() && st.r > 0.0
    ensures UpdateStep(st, s, baseR).r > 0.0
  {
  }

  /** Every written value is one of the two regimes: open (1/gmin) or on (BASER*5/span). */
  lemma UpdateTwoRegimes(st: GateState, s: Sample, baseR: real)
    requires s.WellFormed()
    ensures var st' := UpdateStep(st, s, baseR);
      st' == st || st'.r == OffResistance(s.gmin) || st'.r == OnResistance(baseR, s.Span())
  {
  }

  /** The trace only grows, by nothing or by exactly update, set_R(R), schedule(1 ns). */
  lemma UpdateEventOrder(st: GateState, s: Sample, baseR: real)
    requires s.WellFormed()
    ensures var st' := UpdateStep(st, s, baseR);
      st'.trace == st.trace ||
      st'.trace == st.trace + [SyncBranch, SetResistance(st'.r), ScheduleSolveAfter(ResolveDelayNs)]
  {
  }

  lemma {:induction false} ScheduleCountAppend(a: seq<Event>, b: seq<Event>)
    ensures ScheduleCount(a + b) == ScheduleCount(a) + ScheduleCount(b)
    decreases |b|
  {
    if b == [] {
      assert a + b == a;
    } else {
      var b0 := b[..|b| - 1];
      assert (a + b)[..|a + b| - 1] == a + b0;
      ScheduleCountAppend(a, b0);
    }
  }

  /** Each evaluation issues exactly one re-solve request when it writes, none otherwise. */
  lemma UpdateSchedulesOnce(st: GateState, s: Sample, baseR: real)
    requires s.WellFormed()
    ensures ScheduleCount(UpdateStep(st, s, baseR).trace)
         == ScheduleCount(st.trace) + (if Writes(s, baseR) then 1 else 0)
  {
    if Writes(s, baseR) {
      var ohms := Target(s, baseR).value;
      var w := WriteBack(TimestepNet, ohms);
      ScheduleCountAppend(st.trace, w);
      assert w[..2] == [SyncBranch, SetResistance(ohms)];
      assert w[..2][..1] == [SyncBranch];
      assert ScheduleCount([SyncBranch]) == 0 by { assert [SyncBranch][..0] == []; }
      assert ScheduleCount(w) == 1;
    }
  }

  // ---------------------------------------------------------------------
  // Properties of repeated evaluation

  /** Repeating the evaluation with unchanged inputs gives the resistance of a single evaluation. */
  lemma {:induction false} UpdateRepeatedSameResistance(st: GateState, s: Sample, baseR: real, n: nat)
    requires s.WellFormed() && n >= 1
    ensures UpdateRepeated(st, s, baseR, n).r == UpdateStep(st, s, baseR).r
    decreases n
  {
    if n > 1 {
      var st1 := UpdateStep(st, s, baseR);
      UpdateRepeatedSameResistance(st1, s, baseR, n - 1);
      assert UpdateStep(st1, s, baseR).r == st1.r;
    }
  }

  /** `n` repeated evaluations issue `n` re-solve requests if the first writes, none otherwise. */
  lemma {:induction false} UpdateRepeatedScheduleCount(st: GateState, s: Sample, baseR: real, n: nat)
    requires s.WellFormed()
    ensures ScheduleCount(UpdateRepeated(st, s, baseR, n).trace)
         == ScheduleCount(st.trace) + (if Writes(s, baseR) then n else 0)
    decreases n
  {
    if n > 0 {
      UpdateSchedulesOnce(st, s, baseR);
      UpdateRepeatedScheduleCount(UpdateStep(st, s, baseR), s, baseR, n - 1);
    }
  }

  // ---------------------------------------------------------------------
  // Concrete cases at the default BASER

  lemma ConcreteScenarios(st: GateState, gmin: real)
    requires gmin > 0.0
    ensures UpdateStep(st, Sample(5.0, 0.0, 4.0, gmin), DefaultBaseR).r == 270.0
    ensures UpdateStep(st, Sample(5.0, 0.0, 1.0, gmin), DefaultBaseR).r == 1.0 / gmin
    ensures UpdateStep(st, Sample(5.0, 0.0, 2.5, gmin), DefaultBaseR) == st
    ensures UpdateStep(st, Sample(10.0, 0.0, 9.0, gmin), DefaultBaseR).r == 135.0
  {
  }

  // ---------------------------------------------------------------------
  // The device

  /** CD4066_GATE: owns the resistor `m_R` and the BASER parameter. */
  class Gate {
    /** The BASER parameter, fixed at construction. */
    const baseR: real
    /** Current resistance of the owned resistor branch. */
    var r: real
    /** Calls issued to the branch and the solver, oldest first. */
    ghost var trace: seq<Event>

    ghost function State(): GateState
      reads this
    {
      GateState(r, trace)
    }

    /** `initialR` is whatever the resistor branch holds before the first reset. */
    constructor (initialR: real, baseR: real := DefaultBaseR)
      ensures this.baseR == baseR && State() == GateState(initialR, [])
    {
      this.baseR := baseR;
      r := initialR;
      trace := [];
    }

    /** NETLIB_RESET: start in the off condition. */
    method Reset(gmin: real)
      requires gmin > 0.0
      modifies this
      ensures State() == ResetStep(old(State()), gmin)
      ensures r > 0.0
    {
      var ohms := 1.0 / gmin;
      SetR(ohms);
    }

    /** NETLIB_UPDATE: classify the control voltage and write back a positive target. */
    method Update(s: Sample)
      requires s.WellFormed()
      modifies this
      ensures State() == UpdateStep(old(State()), s, baseR)
      ensures old(r) > 0.0 ==> r > 0.0
    {
      var sup := s.vdd - s.vss;
      var low := LowFraction * sup;
      var high := HighFraction * sup;
      var input := s.ctl - s.vss;
      var rOn := baseR * NominalSpan / sup;
      var R := -1.0;

      if input < low {
        R := 1.0 / s.gmin;
      } else if input > high {
        R := rOn;
      }
      // Only the time-stepping order is reachable (TimestepNet is constant true);
      // the set-then-update order survives in WriteBack(false, _).
      if R > 0.0 {
        SyncBranch();
        SetR(R);
        ScheduleSolveAfter(ResolveDelayNs);
      }
    }

    /** `m_R.set_R`: store a new resistance. */
    method SetR(ohms: real)
      modifies this
      ensures r == ohms && trace == old(trace) + [SetResistance(ohms)]
    {
      r := ohms;
      trace := trace + [SetResistance(ohms)];
    }

    /** `m_R.update()`: let the solver reconcile the branch; the stored resistance is untouched. */
    method SyncBranch()
      modifies this
      ensures r == old(r) && trace == old(trace) + [Event.SyncBranch]
    {
      trace := trace + [Event.SyncBranch];
    }

    /** `schedule_solve_after`: ask for a re-solve `ns` nanoseconds later. */
    method ScheduleSolveAfter(ns: nat)
      modifies this
      ensures r == old(r) && trace == old(trace) + [Event.ScheduleSolveAfter(ns)]
    {
      trace := trace + [Event.ScheduleSolveAfter(ns)];
    }
  }
}
