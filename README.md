# CD4066 analog switch gate

A Dafny model of `CD4066_GATE`, the netlist device that represents one channel of a
CMOS bilateral analog switch (CD4066). The device owns a resistor branch `m_R`. It
reads the supply rails `vdd`/`vss` and a control voltage and sets the resistor to
one of two values:

- "off" (`1/gmin`, the largest resistance the solver tolerates), or
- "on" (`BASER * 5 / (vdd - vss)`, with `BASER` defaulting to 270 ohms).

`reset` starts the switch in the off condition. `update` classifies the control
voltage, measured from `vss`, against 45% and 55% of the supply span:

- below 45% the switch opens;
- above 55% it closes;
- in between (bounds included) nothing happens.

When a target resistance passes the `R > 0` test, the device calls three things in
order: the branch's `update()`, then `set_R(R)`, then a re-solve 1 ns later.

The model is in `cd4066.dfy`, module `CD4066`:

- Pure functions give the resistances, the classification and the target.
- `ResetStep` and `UpdateStep` are state transitions on a `GateState`. A `GateState`
  is the resistance plus a trace of the calls made into the branch and the solver.
- Class `Gate` holds the mutable resistance, the `BASER` constant and a ghost
  call trace. Its `Reset` and `Update` methods follow the source statement by
  statement. Each is proved to produce exactly the state its transition function
  gives.
- Lemmas state the switching behaviour, positivity, event order, the re-solve
  count and the span scaling of the on-resistance.

Inputs the device obtains from elsewhere are parameters. The rails, the control
sample and the solver's `gmin` form a `Sample`. The solver guarantees `gmin > 0`.
The model takes a positive supply span as a domain choice. A zero span would be a
division by zero in the source, which does not guard it. A negative span runs there
without fault, but it is not modelled.

## Model

| member | source | states |
|---|---|---|
| CD4066.OffResistance | src/lib/netlist/devices/nld_4066.cpp:44 | the off value 1/gmin is positive and is the exact reciprocal of gmin |
| CD4066.OnResistance | src/lib/netlist/devices/nld_4066.cpp:54 | rON times the span equals BASER times 5 V; rON is positive exactly when BASER is |
| CD4066.OnResistanceHalvesWhenSpanDoubles | src/lib/netlist/devices/nld_4066.cpp:54 | doubling the supply span halves the on-resistance |
| CD4066.OnResistanceDecreasing | src/lib/netlist/devices/nld_4066.cpp:54 | for positive BASER the on-resistance is strictly decreasing in the span |
| CD4066.DefaultOnResistanceAtFiveVolts | src/lib/netlist/devices/nld_4066.cpp:25 | with the default BASER of 270, rON is 270 ohms at 5 V and 135 ohms at 10 V |
| CD4066.Classify | src/lib/netlist/devices/nld_4066.cpp:50-64 | the decision is Open exactly when the control voltage above vss is below 45% of the span, and Close exactly when it is above 55% |
| CD4066.Target | src/lib/netlist/devices/nld_4066.cpp:55-64 | a target exists exactly outside the 45%-55% window, and it is always the off or the on resistance |
| CD4066.Writes | src/lib/netlist/devices/nld_4066.cpp:55-65 | a value is written exactly when the switch opens, or when it closes with a positive BASER; the sentinel -1 and a non-positive rON both fail the R > 0 test |
| CD4066.WriteBack | src/lib/netlist/devices/nld_4066.cpp:66-78 | on a time-stepping net the calls are exactly update, set_R(R), schedule_solve_after(1 ns); otherwise exactly set_R(R), then update |
| CD4066.WriteBackSyncFirstIffTimestep | src/lib/netlist/devices/nld_4066.cpp:68-78 | update precedes set_R exactly when the net is time-stepping |
| CD4066.ResetStep | src/lib/netlist/devices/nld_4066.cpp:40-46 | reset leaves the reciprocal of gmin as the resistance and appends a single set_R of that value |
| CD4066.UpdateStep | src/lib/netlist/devices/nld_4066.cpp:48-80 | an evaluation either changes nothing or leaves a positive resistance and exactly three new calls |
| CD4066.ResetIdempotent | src/lib/netlist/devices/nld_4066.cpp:40-46 | reset gives 1/gmin whatever the prior state, and a second reset changes the resistance no further |
| CD4066.UpdateBelowLowOpens | src/lib/netlist/devices/nld_4066.cpp:50-60 | below 45% of the span the resistance becomes 1/gmin whatever it was, with update, set_R, schedule appended |
| CD4066.UpdateAboveHighCloses | src/lib/netlist/devices/nld_4066.cpp:52-65 | above 55% of the span, with positive BASER, the resistance becomes BASER*5/span whatever it was |
| CD4066.UpdateNonPositiveBaseRIgnored | src/lib/netlist/devices/nld_4066.cpp:61-65 | above 55% with BASER <= 0 the R > 0 test fails and the state, trace included, is unchanged |
| CD4066.UpdateInBandHolds | src/lib/netlist/devices/nld_4066.cpp:55-65 | inside the closed 45%-55% window the state is unchanged: same resistance, no call made |
| CD4066.UpdateKeepsPositive | src/lib/netlist/devices/nld_4066.cpp:65-71 | a positive resistance stays positive after any evaluation |
| CD4066.UpdateTwoRegimes | src/lib/netlist/devices/nld_4066.cpp:57-71 | after an evaluation the state is either unchanged or holds the off or the on resistance |
| CD4066.UpdateEventOrder | src/lib/netlist/devices/nld_4066.cpp:65-73 | the trace grows by nothing or by exactly update, set_R(new R), schedule_solve_after(1 ns), in that order |
| CD4066.UpdateSchedulesOnce | src/lib/netlist/devices/nld_4066.cpp:65-73 | each evaluation issues exactly one re-solve request when it writes and none otherwise |
| CD4066.UpdateRepeatedSameResistance | src/lib/netlist/devices/nld_4066.cpp:48-80 | any number (at least one) of evaluations with unchanged inputs gives the resistance of a single one |
| CD4066.UpdateRepeatedScheduleCount | src/lib/netlist/devices/nld_4066.cpp:65-73 | n evaluations with unchanged inputs issue n re-solve requests if they write, none otherwise |
| CD4066.ConcreteScenarios | src/lib/netlist/devices/nld_4066.cpp:50-64 | at BASER 270: 5 V rails and 4 V control give 270 ohms, 1 V gives 1/gmin, 2.5 V changes nothing, and 10 V rails with 9 V control give 135 ohms |
| CD4066.Gate.constructor | src/lib/netlist/devices/nld_4066.cpp:20-27 | BASER is set (270 by default), the resistor holds its initial value and no call has been made |
| CD4066.Gate.Reset | src/lib/netlist/devices/nld_4066.cpp:40-46 | the new state is ResetStep of the old one, so the resistance is 1/gmin and positive |
| CD4066.Gate.Update | src/lib/netlist/devices/nld_4066.cpp:48-80 | the sentinel-based code produces exactly UpdateStep of the old state and keeps a positive resistance positive |
| CD4066.Gate.SetR | src/lib/netlist/devices/nld_4066.cpp:71 | the resistance becomes the given value and one set_R call is recorded |
| CD4066.Gate.SyncBranch | src/lib/netlist/devices/nld_4066.cpp:70 | the branch update call leaves the resistance as it was and is recorded |
| CD4066.Gate.ScheduleSolveAfter | src/lib/netlist/devices/nld_4066.cpp:72 | the re-solve request leaves the resistance as it was and is recorded with its delay |

## Left out

- Solver internals. The solver's `gmin()`, the branch's `update()`, `set_R` and `schedule_solve_after` are foreign calls. `gmin` is an input, and the three calls become recorded events. `set_R` also stores the resistance.
- Floating point. Voltages and resistances are exact reals, and the rounding of `nl_double` is not modelled.
- A zero or negative supply span is excluded by a precondition. The code divides by the span without a check and has no clamp or error path. With a negative span it still runs. The high threshold then lies below the low one, so there is no hold window: every control voltage either opens the switch or selects rON. The sign of rON is then the opposite of BASER's. For a positive BASER the negative rON fails the `R > 0` test and the switch never closes; for a negative BASER it does close. The model does not cover that case.
- CD4066.Gate.Update: the set-then-update order is not taken by the method. The source guards the time-stepping order with a constant true and comments out the real query, so the other order is dead code. It appears only in `WriteBack(false, _)`.
- The inclusive window. The code holds the state when the control voltage equals either threshold exactly. `UpdateInBandHolds` states this closed interval, not the open one.
- CD4066.Gate.constructor: the resistor's value before the first reset belongs to the resistor element. The resistor element is not part of this model, so that value is a constructor parameter.
- Device registration and the framework macros (`NETLIB_OBJECT`, `NETLIB_SUB`, `NETLIB_DEVICE_IMPL`) are left out. They declare and register the device and hold no logic.
- `src/mame/drivers/hp9k_3xx.cpp` is not part of this model. It is machine-driver glue: address maps, ROM tables, interrupt wiring, bus-error handlers and framebuffer drawing.
