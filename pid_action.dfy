/**
  The generic PID action of include/afr-vexu-lib/base-action/pid_action.h.
  `Read_T` (the sensed value) and `Write_T` (the command) are both `int`; the
  gains and the intermediate `double`s are `real`, and every
  `static_cast<Write_T>` is truncation toward zero.

  The value-level model (`Controller`, `Next`, `Command`) states what one
  `update_private` does; the class `PidAction` holds the same fields, updates
  them in place, and is proved against it.
 */
module BaseAction {
  import opened Numeric

  /** `error_t`: only `SUCCESS` is named by the controller; any other code is the sink's. */
  datatype ErrorT = Success | Failure(code: int)

  /**
    The `commandable` the action writes to: a sink that records every value it
    is given and answers with its current status.
   */
  class Commandable {
    var sent: seq<int>
    var status: ErrorT

    constructor (status: ErrorT)
      ensures this.sent == [] && this.status == status
    {
      this.sent := [];
      this.status := status;
    }

    method SetValue(value: int) returns (r: ErrorT)
      modifies this
      ensures sent == old(sent) + [value] && status == old(status)
      ensures r == status
    {
      sent := sent + [value];
      r := status;
    }
  }

  /** The location `_value_pointer` points to; whoever owns the sensor keeps it up to date. */
  class SensedValue {
    var value: int

    constructor (value: int)
      ensures this.value == value
    {
      this.value := value;
    }
  }

  /** All fields of a `pid_action` except the two references. */
  datatype Controller = Controller(
    p: real, i: real, d: real,
    minValue: int, maxValue: int,
    minI: int, maxI: int,
    offset: int,
    setpoint: int,
    lastError: real,
    lastValue: int,
    iTerm: int,
    running: bool)

  /** Below this interval (in seconds) neither the integral nor the derivative is updated. */
  const MinDeltaSeconds: real := 0.001

  /** The eleven settings are equal; the transient state may differ. */
  predicate SameSettings(a: Controller, b: Controller) {
    a.p == b.p && a.i == b.i && a.d == b.d &&
    a.minValue == b.minValue && a.maxValue == b.maxValue &&
    a.minI == b.minI && a.maxI == b.maxI &&
    a.offset == b.offset && a.setpoint == b.setpoint
  }

  /** The state right after construction. */
  function Create(p: real, i: real, d: real, minValue: int, maxValue: int,
                  minI: int, maxI: int, offset: int, setpoint: int): (c: Controller)
    ensures c.p == p && c.i == i && c.d == d
    ensures c.minValue == minValue && c.maxValue == maxValue
    ensures c.minI == minI && c.maxI == maxI && c.offset == offset && c.setpoint == setpoint
    ensures c.iTerm == 0 && c.lastValue == 0 && c.lastError == 0.0 && !c.running
  {
    Controller(p, i, d, minValue, maxValue, minI, maxI, offset, setpoint, 0.0, 0, 0, false)
  }

  /** `setpoint - *value_pointer`, subtracted as `Read_T` and then widened. */
  function Error(c: Controller, sensed: int): real {
    (c.setpoint - sensed) as real
  }

  /** `static_cast<Write_T>(_p_value * error)` */
  function ProportionalCast(p: real, error: real): (n: int)
    ensures TruncatesTo(p * error, n)
  {
    Trunc(p * error)
  }

  /** `static_cast<Write_T>(_i_value * error * delta_seconds)` */
  function IntegralCast(i: real, error: real, deltaSeconds: real): (n: int)
    ensures TruncatesTo(i * error * deltaSeconds, n)
  {
    Trunc(i * error * deltaSeconds)
  }

  /** `static_cast<Write_T>(static_cast<double>(last_value - value) * _d_value / delta_seconds)` */
  function DerivativeCast(lastValue: int, sensed: int, d: real, deltaSeconds: real): (n: int)
    requires deltaSeconds != 0.0
    ensures TruncatesTo((lastValue - sensed) as real * d / deltaSeconds, n)
  {
    Trunc((lastValue - sensed) as real * d / deltaSeconds)
  }

  /** The truncation `DerivativeCast` performs, taken at a controller's own fields. */
  lemma DerivativeCastTruncates(c: Controller, sensed: int, deltaSeconds: real)
    requires deltaSeconds != 0.0
    ensures TruncatesTo((c.lastValue - sensed) as real * c.d / deltaSeconds,
                        DerivativeCast(c.lastValue, sensed, c.d, deltaSeconds))
  {
  }

  /** The proportional term. */
  function PTerm(c: Controller, sensed: int): int {
    ProportionalCast(c.p, Error(c, sensed))
  }

  /** Whether this update accumulates the integral and differentiates. */
  predicate Primed(c: Controller, deltaSeconds: real) {
    c.running && deltaSeconds > MinDeltaSeconds
  }

  /** The integral term after the update: accumulated and clamped only when primed. */
  function NextITerm(c: Controller, sensed: int, deltaSeconds: real): int {
    if Primed(c, deltaSeconds) then
      ClampUpperFirst(c.iTerm + IntegralCast(c.i, Error(c, sensed), deltaSeconds), c.minI, c.maxI)
    else
      c.iTerm
  }

  /**
    The derivative term, taken as the value computed at line 107 (the text
    computes it into a shadowing local; see `CommandAsWritten`).
   */
  function DTerm(c: Controller, sensed: int, deltaSeconds: real): int {
    if Primed(c, deltaSeconds) then DerivativeCast(c.lastValue, sensed, c.d, deltaSeconds) else 0
  }

  /** `p_term + i_term + d_term + _offset`, before the output clamp. */
  function RawCommand(c: Controller, sensed: int, deltaSeconds: real): int {
    PTerm(c, sensed) + NextITerm(c, sensed, deltaSeconds) + DTerm(c, sensed, deltaSeconds) + c.offset
  }

  /** The value handed to `set_value`. */
  function Command(c: Controller, sensed: int, deltaSeconds: real): int {
    ClampUpperFirst(RawCommand(c, sensed, deltaSeconds), c.minValue, c.maxValue)
  }

  /** The fields after one `update_private`. */
  function Next(c: Controller, sensed: int, deltaSeconds: real): Controller {
    c.(iTerm := NextITerm(c, sensed, deltaSeconds), lastValue := sensed, running := true)
  }

  /** The proportional term is the gain times `setpoint - sensed`, truncated toward zero. */
  lemma PTermIsTruncatedProduct(c: Controller, sensed: int)
    ensures TruncatesTo(c.p * (c.setpoint - sensed) as real, PTerm(c, sensed))
  {
  }

  /**
    Unprimed (not yet running, or too short an interval) the integral term is
    left alone; primed with ordered bounds it ends within them, equals the
    plain accumulated sum exactly when that sum is within them, and is the
    bound the sum crossed otherwise.
   */
  lemma NextITermSpec(c: Controller, sensed: int, deltaSeconds: real)
    ensures !Primed(c, deltaSeconds) ==> NextITerm(c, sensed, deltaSeconds) == c.iTerm
    ensures Primed(c, deltaSeconds) && c.minI <= c.maxI ==>
              c.minI <= NextITerm(c, sensed, deltaSeconds) <= c.maxI
    ensures Primed(c, deltaSeconds) && c.minI <= c.maxI ==>
              var acc := c.iTerm + IntegralCast(c.i, Error(c, sensed), deltaSeconds);
              (NextITerm(c, sensed, deltaSeconds) == acc <==> c.minI <= acc <= c.maxI)
    ensures Primed(c, deltaSeconds) && c.minI <= c.maxI ==>
              var acc := c.iTerm + IntegralCast(c.i, Error(c, sensed), deltaSeconds);
              (acc > c.maxI ==> NextITerm(c, sensed, deltaSeconds) == c.maxI) &&
              (acc < c.minI ==> NextITerm(c, sensed, deltaSeconds) == c.minI)
  {
  }

  /**
    Unprimed the derivative term is 0; primed it is the change of the sensed
    value since the last update, times the d gain, over the interval.
   */
  lemma DTermSpec(c: Controller, sensed: int, deltaSeconds: real)
    ensures !Primed(c, deltaSeconds) ==> DTerm(c, sensed, deltaSeconds) == 0
    ensures Primed(c, deltaSeconds) ==>
              TruncatesTo((c.lastValue - sensed) as real * c.d / deltaSeconds, DTerm(c, sensed, deltaSeconds))
  {
    if Primed(c, deltaSeconds) {
      assert DTerm(c, sensed, deltaSeconds) == DerivativeCast(c.lastValue, sensed, c.d, deltaSeconds);
      DerivativeCastTruncates(c, sensed, deltaSeconds);
    }
  }

  /**
    Given ordered output bounds the command lies within them, and it is the
    unclamped sum (offset included) exactly when that sum is already in range;
    a sum out of range is sent as the bound it crossed, never the opposite one.
   */
  lemma CommandInBounds(c: Controller, sensed: int, deltaSeconds: real)
    requires c.minValue <= c.maxValue
    ensures c.minValue <= Command(c, sensed, deltaSeconds) <= c.maxValue
    ensures Command(c, sensed, deltaSeconds) == RawCommand(c, sensed, deltaSeconds) <==>
            c.minValue <= RawCommand(c, sensed, deltaSeconds) <= c.maxValue
    ensures RawCommand(c, sensed, deltaSeconds) > c.maxValue ==> Command(c, sensed, deltaSeconds) == c.maxValue
    ensures RawCommand(c, sensed, deltaSeconds) < c.minValue ==> Command(c, sensed, deltaSeconds) == c.minValue
  {
  }

  /** Priming: the first update after construction never differentiates nor integrates. */
  lemma FirstUpdateIsUnprimed(p: real, i: real, d: real, minValue: int, maxValue: int,
                              minI: int, maxI: int, offset: int, setpoint: int,
                              sensed: int, deltaSeconds: real)
    ensures var c := Create(p, i, d, minValue, maxValue, minI, maxI, offset, setpoint);
            DTerm(c, sensed, deltaSeconds) == 0 && Next(c, sensed, deltaSeconds).iTerm == 0 &&
            Next(c, sensed, deltaSeconds).running
  {
  }

  /** Once the integral term is within its bounds, an update keeps it there, primed or not. */
  lemma ITermStaysInBounds(c: Controller, sensed: int, deltaSeconds: real)
    requires c.minI <= c.iTerm <= c.maxI
    ensures c.minI <= Next(c, sensed, deltaSeconds).iTerm <= c.maxI
  {
  }

  /**
    Not every state reachable from construction has its integral term in
    bounds: the first update is unprimed and leaves the initial 0 in place.
   */
  lemma ITermMayStartOutOfBounds()
    ensures var c := Create(1.0, 1.0, 0.0, -100, 100, 5, 10, 0, 0);
            var n := Next(c, 0, 1.0);
            n.iTerm == 0 && !(n.minI <= n.iTerm <= n.maxI)
  {
  }

  /** One scheduled run of `update_private`: the sensed value read and the elapsed time. */
  datatype Tick = Tick(sensed: int, deltaSeconds: real)

  /** The fields after a series of updates. */
  function Run(c: Controller, ticks: seq<Tick>): Controller
    decreases |ticks|
  {
    if ticks == [] then c
    else Run(Next(c, ticks[0].sensed, ticks[0].deltaSeconds), ticks[1..])
  }

  /** The values sent to the commandable during a series of updates. */
  function Commands(c: Controller, ticks: seq<Tick>): (vs: seq<int>)
    ensures |vs| == |ticks|
    decreases |ticks|
  {
    if ticks == [] then []
    else [Command(c, ticks[0].sensed, ticks[0].deltaSeconds)] +
         Commands(Next(c, ticks[0].sensed, ticks[0].deltaSeconds), ticks[1..])
  }

  /** Updates never change the settings, and after at least one the controller is primed. */
  lemma {:induction false} RunKeepsSettings(c: Controller, ticks: seq<Tick>)
    ensures SameSettings(c, Run(c, ticks))
    ensures ticks != [] ==> Run(c, ticks).running
    ensures ticks != [] ==> Run(c, ticks).lastValue == ticks[|ticks| - 1].sensed
    decreases |ticks|
  {
    if ticks != [] {
      var n := Next(c, ticks[0].sensed, ticks[0].deltaSeconds);
      RunKeepsSettings(n, ticks[1..]);
      if |ticks| > 1 {
        assert ticks[1..][|ticks[1..]| - 1] == ticks[|ticks| - 1];
      }
    }
  }

  /** Clamping invariant over any run: every value sent lies within the output bounds. */
  lemma {:induction false} CommandsInBounds(c: Controller, ticks: seq<Tick>)
    requires c.minValue <= c.maxValue
    ensures forall k :: 0 <= k < |ticks| ==> c.minValue <= Commands(c, ticks)[k] <= c.maxValue
    decreases |ticks|
  {
    if ticks != [] {
      var n := Next(c, ticks[0].sensed, ticks[0].deltaSeconds);
      CommandsInBounds(n, ticks[1..]);
      var vs := Commands(c, ticks);
      forall k | 0 <= k < |ticks| ensures c.minValue <= vs[k] <= c.maxValue {
        if k > 0 {
          assert vs[k] == Commands(n, ticks[1..])[k - 1];
        }
      }
    }
  }

  /** Once in bounds, the integral term stays in bounds for any run. */
  lemma {:induction false} RunKeepsITermInBounds(c: Controller, ticks: seq<Tick>)
    requires c.minI <= c.iTerm <= c.maxI
    ensures var r := Run(c, ticks); c.minI <= r.iTerm <= c.maxI
    decreases |ticks|
  {
    if ticks != [] {
      var n := Next(c, ticks[0].sensed, ticks[0].deltaSeconds);
      RunKeepsITermInBounds(n, ticks[1..]);
    }
  }

  /**
    Worked example: gains (1, 0, 0), bounds [-100, 100],
    setpoint 10 and sensed value 4 command 6; an offset of -3 commands 3.
   */
  lemma ProportionalExample(deltaSeconds: real, running: bool)
    ensures var c := Controller(1.0, 0.0, 0.0, -100, 100, -100, 100, 0, 10, 0.0, 4, 0, running);
            Command(c, 4, deltaSeconds) == 6 && Command(c.(offset := -3), 4, deltaSeconds) == 3
  {
  }

  /** Worked example: an integral step of 2 * 5 * 1 = 10 is clamped to the bound 8. */
  lemma IntegralClampExample()
    ensures var c := Controller(0.0, 2.0, 0.0, -100, 100, -8, 8, 0, 5, 0.0, 0, 0, true);
            NextITerm(c, 0, 1.0) == 8
  {
  }

  // ---------------------------------------------------------------------
  // Line 107 as written: `Write_T d_term = ...` declares a second `d_term`
  // inside the primed branch, so the one summed at line 113 is never
  // assigned there and holds whatever the stack held.

  /** The command as the text computes it; `indeterminate` is the unassigned outer `d_term`. */
  function CommandAsWritten(c: Controller, sensed: int, deltaSeconds: real, indeterminate: int): (v: int)
    ensures !Primed(c, deltaSeconds) ==> v == Command(c, sensed, deltaSeconds)
  {
    var dTerm := if Primed(c, deltaSeconds) then indeterminate else 0;
    ClampUpperFirst(PTerm(c, sensed) + NextITerm(c, sensed, deltaSeconds) + dTerm + c.offset,
                    c.minValue, c.maxValue)
  }

  /**
    The derivative computed on the primed branch is lost: with gain d = 1, last
    value 10 and sensed value 0 over one second the derivative is 10, yet the
    command as written equals the intended one only when the indeterminate
    value happens to be 10.
   */
  lemma ShadowedDerivativeIsLost(indeterminate: int)
    ensures var c := Controller(0.0, 0.0, 1.0, -1000, 1000, -1000, 1000, 0, 0, 0.0, 10, 0, true);
            DTerm(c, 0, 1.0) == 10 &&
            (CommandAsWritten(c, 0, 1.0, indeterminate) == Command(c, 0, 1.0) <==> indeterminate == 10)
  {
    var c := Controller(0.0, 0.0, 1.0, -1000, 1000, -1000, 1000, 0, 0, 0.0, 10, 0, true);
    assert PTerm(c, 0) == 0;
    assert NextITerm(c, 0, 1.0) == 0;
    assert DTerm(c, 0, 1.0) == 10;
  }

  /**
    With the derivative in place, the d gain acts on the command: within the
    output bounds, changing the gain moves the command by exactly the change in
    the derivative term.
   */
  lemma DerivativeReachesCommand(c: Controller, d': real, sensed: int, deltaSeconds: real)
    requires c.minValue <= RawCommand(c, sensed, deltaSeconds) <= c.maxValue
    requires var c' := c.(d := d'); c'.minValue <= RawCommand(c', sensed, deltaSeconds) <= c'.maxValue
    ensures Command(c.(d := d'), sensed, deltaSeconds) - Command(c, sensed, deltaSeconds)
            == DTerm(c.(d := d'), sensed, deltaSeconds) - DTerm(c, sensed, deltaSeconds)
  {
    var c' := c.(d := d');
    assert PTerm(c', sensed) == PTerm(c, sensed);
    assert NextITerm(c', sensed, deltaSeconds) == NextITerm(c, sensed, deltaSeconds);
  }

  /** A `pid_action`: the fields of `Controller` plus the sensed-value pointer and the commandable. */
  class PidAction {
    var p: real
    var i: real
    var d: real
    var minValue: int
    var maxValue: int
    var minI: int
    var maxI: int
    var offset: int
    const valuePointer: SensedValue
    var setpoint: int

    var lastError: real
    var lastValue: int
    var iTerm: int
    var running: bool

    const commandable: Commandable

    /** The fields as a value. */
    function Snapshot(): Controller
      reads this
    {
      Controller(p, i, d, minValue, maxValue, minI, maxI, offset, setpoint,
                 lastError, lastValue, iTerm, running)
    }

    constructor (commandable: Commandable, p: real, i: real, d: real,
                 minValue: int, maxValue: int, minI: int, maxI: int, offset: int,
                 valuePointer: SensedValue, setpoint: int)
      ensures Snapshot() == Create(p, i, d, minValue, maxValue, minI, maxI, offset, setpoint)
      ensures this.commandable == commandable && this.valuePointer == valuePointer
    {
      this.commandable := commandable;
      this.p, this.i, this.d := p, i, d;
      this.minValue, this.maxValue := minValue, maxValue;
      this.minI, this.maxI := minI, maxI;
      this.offset := offset;
      this.valuePointer := valuePointer;
      this.setpoint := setpoint;
      lastError := 0.0;
      lastValue := 0;
      iTerm := 0;
      running := false;
    }

    /** The control law, run by the action's scheduler with the elapsed time. */
    method UpdatePrivate(deltaSeconds: real) returns (r: ErrorT)
      modifies this, commandable
      ensures Snapshot() == Next(old(Snapshot()), valuePointer.value, deltaSeconds)
      ensures commandable.sent ==
              old(commandable.sent) + [Command(old(Snapshot()), valuePointer.value, deltaSeconds)]
      ensures commandable.status == old(commandable.status) && r == commandable.status
      ensures minValue <= maxValue ==> minValue <= commandable.sent[|commandable.sent| - 1] <= maxValue
    {
      ghost var c, sensed := Snapshot(), valuePointer.value;
      var error := (setpoint - valuePointer.value) as real;
      var pTerm := ProportionalCast(p, error);
      var dTerm: int;
      if running && deltaSeconds > MinDeltaSeconds {
        iTerm := iTerm + IntegralCast(i, error, deltaSeconds);
        if iTerm > maxI {
          iTerm := maxI;
        } else if iTerm < minI {
          iTerm := minI;
        }
        dTerm := DerivativeCast(lastValue, valuePointer.value, d, deltaSeconds);
      } else {
        dTerm := 0;
        running := true;
      }
      var writeValue := pTerm + iTerm + dTerm + offset;
      assert writeValue == RawCommand(c, sensed, deltaSeconds);
      if writeValue > maxValue {
        writeValue := maxValue;
      } else if writeValue < minValue {
        writeValue := minValue;
      }
      if minValue <= maxValue {
        CommandInBounds(c, sensed, deltaSeconds);
      }
      lastValue := valuePointer.value;
      r := commandable.SetValue(writeValue);
    }

    method SetPidConstants(p: real, i: real, d: real) returns (r: ErrorT)
      modifies this
      ensures Snapshot() == old(Snapshot()).(p := p, i := i, d := d)
      ensures r == Success
    {
      this.p, this.i, this.d := p, i, d;
      r := Success;
    }

    method SetBounds(minValue: int, maxValue: int) returns (r: ErrorT)
      modifies this
      ensures Snapshot() == old(Snapshot()).(minValue := minValue, maxValue := maxValue)
      ensures r == Success
    {
      this.minValue, this.maxValue := minValue, maxValue;
      r := Success;
    }

    method SetIBounds(minI: int, maxI: int) returns (r: ErrorT)
      modifies this
      ensures Snapshot() == old(Snapshot()).(minI := minI, maxI := maxI)
      ensures r == Success
    {
      this.minI, this.maxI := minI, maxI;
      r := Success;
    }

    method SetOffset(offset: int) returns (r: ErrorT)
      modifies this
      ensures Snapshot() == old(Snapshot()).(offset := offset)
      ensures r == Success
    {
      this.offset := offset;
      r := Success;
    }

    method SetTarget(setpoint: int) returns (r: ErrorT)
      modifies this
      ensures Snapshot() == old(Snapshot()).(setpoint := setpoint)
      ensures r == Success
    {
      this.setpoint := setpoint;
      r := Success;
    }
  }
}
