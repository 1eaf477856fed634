# VEX-U 2018 control core in Dafny

This project models three parts of the robot's control code and proves what
each promises:

- the generic PID action `pid_action<Read_T, Write_T>`
  (`include/afr-vexu-lib/base-action/pid_action.h`, module `BaseAction`, file `pid_action.dfy`);
- the stand-alone `PID` class (`src/PID.cpp` with its fields from `src/PID.h`,
  module `StandalonePid`, file `pid.dfy`);
- the `state` and `transition` containers of the state machine
  (`src/afr-vexu-lib/state.cpp`, module `StateMachine`, file `state.dfy`).

The module `Numeric` (file `numeric.dfy`) holds what both controllers share.
It defines the C++ conversion from `double` to an integer type, which truncates
toward zero. It also defines the two clamps, which test their bounds in
different orders, and `uint32_t` subtraction.

Each controller appears twice. A datatype (`Controller`, `PidState`) holds its
fields as a value. Pure functions (`Next`/`Command`, `AfterCompute`) say what
one update does to that value, and lemmas state the promised properties about
those functions. A class (`PidAction`, `Pid`) then holds the same fields and
updates them in place, step by step, as the C++ does. Each of its methods is
proved to agree with the function through its `Snapshot()`.

Types. `Read_T` and `Write_T` are `int`, and every `double` is a `real`. Each
`static_cast<Write_T>` is `Numeric.Trunc`. `uint32_t` is `Numeric.U32`, and
subtraction on it wraps modulo 2^32.

Decisions where the text does not say one thing:

- pid_action.h line 97 reads `_i_term`, which is not a member, so the file does
  not compile as written. The model uses `_i_value`, the integral gain. That is
  the only member the name can mean.
- pid_action.h line 107 declares a second `d_term` inside the primed branch.
  The outer `d_term`, which line 113 adds in, is therefore never assigned on
  that branch. The model uses the derivative the line computes. The code as
  written is kept as `CommandAsWritten` and is logged under Findings.
- The out-of-class constructor at pid_action.h line 164 lacks the
  `pid_action<Read_T, Write_T>::` qualifier. The model takes it as the
  constructor it evidently is.
- The 0.001 s minimum interval of `update_private` is a literal in the code,
  not a setting, so here it is the constant `BaseAction.MinDeltaSeconds`.
- `pid_action`'s integral term is not always within `[min_i, max_i]`. The
  first update is unprimed and leaves the initial 0 in place, even when 0 lies
  outside the bounds (`ITermMayStartOutOfBounds`). From a state whose integral
  term is within the bounds, every update keeps it there.
- `update_private` accumulates the integral term only on the primed branch;
  the unprimed branch leaves it alone, and the model does the same.
- `update_actions` iterates an `unordered_map`, whose order the code does not
  fix, so the model picks the identifiers in an unspecified order.
- No `PID` constructor initialises `output`. The constructors' contracts say
  nothing about it, and `getOutput` before the first qualifying `compute`
  returns an unknown value. `RunKeepsSettled` covers the calls after that first
  qualifying `compute`.
- `PID::compute` computes a derivative term and never uses it. The output is
  `p_term + i_term` (`DerivativeIsUnused`). The model keeps this as written.
- The actions, guards and entry callbacks that a `state` holds are opaque to it.
  `StateMachine.Action` stands in for an action and counts the `update()` calls
  it receives. `StateMachine.Guard` holds the value its closure would return.
  `StateMachine.EntryCallback` logs the states it is invoked with. Likewise,
  `BaseAction.Commandable` stands in for the `commandable` that `pid_action`
  writes to. It records every value it is sent and answers with its current
  status.

## Model

| member | source | states |
|---|---|---|
| Numeric.Trunc | include/afr-vexu-lib/base-action/pid_action.h:91 | `static_cast<Write_T>` of a double: the result is the real with its fractional part dropped (rounded toward zero) |
| Numeric.TruncTowardZero | include/afr-vexu-lib/base-action/pid_action.h:91 | the cast never increases the magnitude, loses less than one, and keeps the sign |
| Numeric.TruncOdd | include/afr-vexu-lib/base-action/pid_action.h:107 | the cast is symmetric about zero (unlike a floor), so a negative derivative truncates like a positive one |
| Numeric.TruncatesToUnique | include/afr-vexu-lib/base-action/pid_action.h:97 | only one integer is the truncation of a real, so the cast is fully specified |
| Numeric.ClampUpperFirst | include/afr-vexu-lib/base-action/pid_action.h:115-121 | with min <= max the result is within [min, max], equals the input exactly when the input is in range, is max when the input is above max and min when it is below min; with inverted bounds, values above max become max and the rest min |
| Numeric.ClampLowerFirst | src/PID.cpp:75-76 | with min <= max the result is within [min, max], equals the input exactly when it is in range, is min when the input is below min and max when it is above max; with inverted bounds, values below min become min and the rest max |
| Numeric.ClampsAgree | src/PID.cpp:59-60 | for ordered bounds the lower-first clamp of PID.cpp and the upper-first clamp of pid_action.h agree |
| Numeric.WrappingSub | src/PID.cpp:51 | `currtime - lasttime` on uint32_t: adding `lasttime` back modulo 2^32 gives `currtime`, and the difference is 0 only for equal times |
| BaseAction.Commandable.SetValue | include/afr-vexu-lib/base-action/pid_action.h:124 | the sink records the value it is sent and returns its status unchanged |
| BaseAction.Create | include/afr-vexu-lib/base-action/pid_action.h:167-182 | construction stores the nine settings as given and starts with i_term = 0, last_value = 0, last_error = 0, running = false |
| BaseAction.ProportionalCast | include/afr-vexu-lib/base-action/pid_action.h:91 | `static_cast<Write_T>(_p_value*error)` is the product truncated toward zero |
| BaseAction.IntegralCast | include/afr-vexu-lib/base-action/pid_action.h:97 | `static_cast<Write_T>(_i_value*error*delta_seconds)` is the product truncated toward zero |
| BaseAction.DerivativeCast | include/afr-vexu-lib/base-action/pid_action.h:107 | `static_cast<Write_T>((last_value - value) * _d_value / delta_seconds)` is the quotient truncated toward zero |
| BaseAction.PTermIsTruncatedProduct | include/afr-vexu-lib/base-action/pid_action.h:90-91 | the P term is p × (setpoint − sensed value), truncated toward zero |
| BaseAction.NextITermSpec | include/afr-vexu-lib/base-action/pid_action.h:96-112 | unprimed (not running, or delta_seconds <= 0.001) the integral term is unchanged; primed with min_i <= max_i it ends within [min_i, max_i], equals the accumulated sum exactly when that sum is in range, and is max_i when the sum is above max_i and min_i when it is below min_i |
| BaseAction.DTermSpec | include/afr-vexu-lib/base-action/pid_action.h:93-111 | unprimed the derivative term is 0; primed it is the truncation toward zero of (last_value − sensed) × d / delta_seconds |
| BaseAction.CommandInBounds | include/afr-vexu-lib/base-action/pid_action.h:113-121 | with min_value <= max_value the value sent lies within them, is p + i + d + offset unchanged exactly when that sum is already in range (the offset is added before the clamp), and is max_value when the sum is above max_value and min_value when it is below min_value |
| BaseAction.FirstUpdateIsUnprimed | include/afr-vexu-lib/base-action/pid_action.h:179-182 | after construction the first update has derivative 0, leaves i_term at 0, and primes the controller |
| BaseAction.ITermStaysInBounds | include/afr-vexu-lib/base-action/pid_action.h:96-112 | an integral term within [min_i, max_i] stays there through an update, primed or not |
| BaseAction.ITermMayStartOutOfBounds | include/afr-vexu-lib/base-action/pid_action.h:109-112 | with bounds [5, 10] the first update leaves i_term = 0, outside the bounds |
| BaseAction.RunKeepsSettings | include/afr-vexu-lib/base-action/pid_action.h:89-125 | any series of updates leaves every setting unchanged; after at least one the controller is primed and last_value is the last sensed value |
| BaseAction.CommandsInBounds | include/afr-vexu-lib/base-action/pid_action.h:113-124 | with min_value <= max_value every value sent during any series of updates lies within [min_value, max_value] |
| BaseAction.RunKeepsITermInBounds | include/afr-vexu-lib/base-action/pid_action.h:96-105 | once within [min_i, max_i], the integral term stays there for any series of updates |
| BaseAction.ProportionalExample | include/afr-vexu-lib/base-action/pid_action.h:90-121 | gains (1, 0, 0), bounds [-100, 100], setpoint 10, sensed 4 send 6; with offset -3 they send 3 |
| BaseAction.IntegralClampExample | include/afr-vexu-lib/base-action/pid_action.h:96-105 | a primed integral step of 2 × 5 × 1 s = 10 from 0 is clamped to max_i = 8 |
| BaseAction.CommandAsWritten | include/afr-vexu-lib/base-action/pid_action.h:107-113 | the command as the text computes it, with the unassigned outer d_term as a parameter; unprimed it agrees with the model's command |
| BaseAction.ShadowedDerivativeIsLost | include/afr-vexu-lib/base-action/pid_action.h:107-113 | for a primed controller whose derivative is 10, the command as written equals the intended one only if the indeterminate value is 10 |
| BaseAction.DerivativeReachesCommand | include/afr-vexu-lib/base-action/pid_action.h:107-113 | in the model, changing the d gain moves an in-range command by exactly the change in the derivative term |
| BaseAction.PidAction.constructor | include/afr-vexu-lib/base-action/pid_action.h:164-182 | the fields equal `Create` of the arguments; the commandable and the value pointer are the ones given |
| BaseAction.PidAction.UpdatePrivate | include/afr-vexu-lib/base-action/pid_action.h:89-125 | the fields become `Next` of the old fields and the sensed value; exactly one value, `Command` of them, is sent; the result is the commandable's status; with min_value <= max_value the value sent lies within them |
| BaseAction.PidAction.SetPidConstants | include/afr-vexu-lib/base-action/pid_action.h:128-133 | overwrites p, i and d only, returns SUCCESS |
| BaseAction.PidAction.SetBounds | include/afr-vexu-lib/base-action/pid_action.h:136-140 | overwrites min_value and max_value only, without checking their order, returns SUCCESS |
| BaseAction.PidAction.SetIBounds | include/afr-vexu-lib/base-action/pid_action.h:143-147 | overwrites min_i and max_i only, without checking their order, returns SUCCESS |
| BaseAction.PidAction.SetOffset | include/afr-vexu-lib/base-action/pid_action.h:150-153 | overwrites the offset only, returns SUCCESS |
| BaseAction.PidAction.SetTarget | include/afr-vexu-lib/base-action/pid_action.h:156-159 | overwrites the setpoint only (i_term, running, last_value untouched), returns SUCCESS |
| StandalonePid.GateIsTenMillis | src/PID.cpp:50-52 | `dt > 0.01` with dt = elapsed ms / 1000 holds exactly when more than 10 ms have elapsed |
| StandalonePid.ComputeIsGated | src/PID.cpp:50-53 | compute leaves every field, `lasttime` included, unchanged exactly when at most 10 ms (modulo 2^32) have elapsed |
| StandalonePid.QualifyingComputeRecords | src/PID.cpp:52-72 | a qualifying compute sets lasttime to currtime, lastinput to input and initialized to true, and keeps every setting |
| StandalonePid.ITermInBounds | src/PID.cpp:58-60 | with i_min <= i_max a qualifying compute leaves i_term within them, equal to the accumulated sum exactly when that sum is in range, i_min when the sum is below i_min and i_max when it is above i_max |
| StandalonePid.IntegralIgnoresPriming | src/PID.cpp:58-71 | i_term and output after compute do not depend on `initialized`, so the integral accumulates on the first compute too |
| StandalonePid.OutputInBounds | src/PID.cpp:74-76 | with min <= max a qualifying compute leaves output within them, equal to p_term + i_term exactly when that sum is in range, min when the sum is below min and max when it is above max |
| StandalonePid.DerivativeIsUnused | src/PID.cpp:62-76 | changing d_val or the previous input changes nothing compute produces except those two fields |
| StandalonePid.InitializedIsMonotone | src/PID.cpp:63-71 | after compute, initialized holds exactly when it held before or the compute qualified |
| StandalonePid.WrapAroundQualifies | src/PID.cpp:50-52 | from 5 ms before the 32-bit rollover to 6 ms after it is 11 ms, which passes the gate |
| StandalonePid.ComputeKeepsSettled | src/PID.cpp:52-77 | with ordered bounds compute keeps "initialized implies output and i_term within bounds" |
| StandalonePid.RunKeepsSettled | src/PID.cpp:48-78 | over any series of computes with ordered bounds, once initialized the output and i_term stay within bounds and initialized stays true |
| StandalonePid.Pid.Default | src/PID.cpp:3-16 | gains 0, bounds ±1E100 for output and integral, i_term 0, not initialized, lastinput 0, lasttime = now |
| StandalonePid.Pid.WithGains | src/PID.cpp:18-31 | the given gains, bounds ±1E100, i_term 0, not initialized, lastinput 0, lasttime = now |
| StandalonePid.Pid.WithBounds | src/PID.cpp:33-46 | the given gains and bounds, i_term = i_offset unclamped, not initialized, lastinput 0, lasttime = now |
| StandalonePid.Pid.Compute | src/PID.cpp:48-78 | the fields become `AfterCompute` of the old fields, the arguments and the time |
| StandalonePid.Pid.GetOutput | src/PID.cpp:80-83 | returns output and changes nothing |
| StandalonePid.Pid.SetConstants | src/PID.cpp:85-90 | overwrites p_val, i_val and d_val only |
| StandalonePid.Pid.SetBounds | src/PID.cpp:92-96 | overwrites _min and _max only |
| StandalonePid.Pid.SetIBounds | src/PID.cpp:98-102 | overwrites _i_min and _i_max only |
| StateMachine.State.constructor | src/afr-vexu-lib/state.cpp:4-8 | stores the action map, the transition list (in order) and the entry callback as given |
| StateMachine.State.UpdateActions | src/afr-vexu-lib/state.cpp:10-14 | every action in the map receives one update() per identifier bound to it, in unspecified order; nothing outside the map is touched |
| StateMachine.UnaliasedUpdatesOnce | src/afr-vexu-lib/state.cpp:10-14 | when no two identifiers share an action, each action is updated exactly once |
| StateMachine.State.OnStateEntry | src/afr-vexu-lib/state.cpp:16-18 | invokes the stored callback once, with `previous`, and modifies nothing else |
| StateMachine.State.GetAction | src/afr-vexu-lib/state.cpp:20-22 | returns the action bound to the identifier; the identifier must be bound (`.at` throws otherwise) |
| StateMachine.State.GetTransitions | src/afr-vexu-lib/state.cpp:24-26 | returns the stored transition sequence unchanged and in order |
| StateMachine.Transition.constructor | src/afr-vexu-lib/state.cpp:28-29 | stores the guard and the destination name as given |
| StateMachine.Transition.ShouldChangeState | src/afr-vexu-lib/state.cpp:31-33 | returns the guard's current value |
| StateMachine.Transition.GetNextState | src/afr-vexu-lib/state.cpp:35-38 | returns the destination stored at construction |

## Left out

- BaseAction.PidAction.UpdatePrivate: on the primed branch it uses the derivative computed at line 107, not the unassigned variable the text adds at line 113. The as-written behaviour is `CommandAsWritten`, under Findings.
- The `action` base class (`afr-vexu-lib/action.h`) is not part of this model. That covers its update-period gate, the `error_t* result` setup slot and `update()` itself. `update_private` takes `delta_seconds` as an input, and `error_t` is modelled only as `Success` or some other code.
- `commandable::set_value` is not part of this model. `BaseAction.Commandable` is a stand-in that records values and returns a status.
- StateMachine.State.UpdateActions: the stand-in `Action.update()` only counts calls. What a real action's update does (run a PID law, write an actuator) is not modelled.
- `pros::millis()` is a parameter (`now`, `currtime`) of the `PID` constructors and of `compute`.
- IEEE 754 rounding is not modelled. Doubles are exact reals, and ±1E100 is a plain constant. A `double`-to-integer cast of an out-of-range value (undefined in C++) is not modelled.
- `Write_T` and `Read_T` overflow is not modelled. The sums `p_term + i_term + d_term + _offset` and `last_value - value` are taken on unbounded integers.
- `std::cout` log line in `transition::get_next_state` (state.cpp line 36): observability only, left out.
- The bodies of guards and entry callbacks are opaque `std::function`s. They are stand-ins that hold a value or log their calls.
- The state-machine runner and its first-match transition selection are not in these files and are not modelled.
- `src/opcontrol.cpp` is not modelled. It is a hardware loop built on motors, the controller, the LCD and delays. Its velocity ring index wraps `% 5` over a 3-element array (lines 31 and 44), an out-of-bounds write.
- In pid_action.h the setters and `update_private` are private members. They are modelled as ordinary methods of the class.
- The value pointer `_value_pointer` is a `SensedValue` object that `update_private` only reads. The C++ reads it three times, and the model treats all three reads as one value, since nothing else runs during the call.

## Findings

| source | as written | input that shows it | evidently intended | confidence | as-written member | corrected member |
|---|---|---|---|---|---|---|
| include/afr-vexu-lib/base-action/pid_action.h:107 | `Write_T d_term = ...` declares a new local inside the primed branch; the `d_term` summed at line 113 is never assigned there, so the command includes an indeterminate value and the computed derivative is discarded | running controller, d = 1, last value 10, sensed value 0, delta 1 s, gains p = i = 0, bounds ±1000: the derivative is 10, but the command is whatever the uninitialised variable holds | the computed derivative is assigned to the outer `d_term` and enters the command | high (not executed) | BaseAction.ShadowedDerivativeIsLost | BaseAction.DerivativeReachesCommand |
