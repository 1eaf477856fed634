/**
  The stand-alone PID controller of src/PID.cpp (fields as declared in
  src/PID.h). All `double`s are `real`; the clock `pros::millis()` is passed in
  as `now` / `currtime`, a `uint32_t` millisecond count.

  The value-level model (`PidState`, `AfterCompute`) states what one `compute`
  does; the class `Pid` holds the same fields, updates them in place, and is
  proved against it.
 */
module StandalonePid {
  import opened Numeric

  /** The bound the two shorter constructors use for "unbounded". */
  const Huge: real := 1.0e100

  /** The fields of a `PID`. */
  datatype PidState = PidState(
    initialized: bool,
    pVal: real, iVal: real, dVal: real,
    min: real, max: real,
    iMin: real, iMax: real,
    iTerm: real,
    lasttime: U32,
    lastinput: real,
    output: real)

  /** Milliseconds since the last qualifying compute, with `uint32_t` wrap-around. */
  function ElapsedMillis(currtime: U32, lasttime: U32): U32 {
    WrappingSub(currtime, lasttime)
  }

  /** `(double)(currtime - lasttime) / 1000.0`, in seconds. */
  function Dt(currtime: U32, lasttime: U32): real {
    ElapsedMillis(currtime, lasttime) as real / 1000.0
  }

  /** Whether `compute` at `currtime` passes the `dt > 0.01` gate. */
  predicate Qualifies(s: PidState, currtime: U32) {
    Dt(currtime, s.lasttime) > 0.01
  }

  /** The gate on seconds is exactly "more than ten milliseconds have passed". */
  lemma GateIsTenMillis(s: PidState, currtime: U32)
    ensures Qualifies(s, currtime) <==> ElapsedMillis(currtime, s.lasttime) > 10
  {
  }

  /** `error * p_val` */
  function Proportional(error: real, pVal: real): real {
    error * pVal
  }

  /** `error * i_val * dt` */
  function IntegralStep(error: real, iVal: real, dt: real): real {
    error * iVal * dt
  }

  /** `(lastinput - input) / dt * d_val` */
  function Derivative(lastinput: real, input: real, dt: real, dVal: real): real
    requires dt != 0.0
  {
    (lastinput - input) / dt * dVal
  }

  /** The integral term after a qualifying compute: accumulated, then clamped (lower bound first). */
  function NextITerm(s: PidState, target: real, input: real, currtime: U32): real {
    ClampLowerFirst(s.iTerm + IntegralStep(target - input, s.iVal, Dt(currtime, s.lasttime)), s.iMin, s.iMax)
  }

  /** `p_term + i_term` after a qualifying compute, before the output clamp. */
  function RawOutput(s: PidState, target: real, input: real, currtime: U32): real {
    Proportional(target - input, s.pVal) + NextITerm(s, target, input, currtime)
  }

  /** The fields after `compute(target, input)` at time `currtime`. */
  function AfterCompute(s: PidState, target: real, input: real, currtime: U32): PidState {
    if Qualifies(s, currtime) then
      s.(lasttime := currtime,
         iTerm := NextITerm(s, target, input, currtime),
         initialized := true,
         lastinput := input,
         output := ClampLowerFirst(RawOutput(s, target, input, currtime), s.min, s.max))
    else
      s
  }

  /** The settings agree; the transient fields may differ. */
  predicate SameSettings(a: PidState, b: PidState) {
    a.pVal == b.pVal && a.iVal == b.iVal && a.dVal == b.dVal &&
    a.min == b.min && a.max == b.max && a.iMin == b.iMin && a.iMax == b.iMax
  }

  /**
    The time gate: `compute` changes no field at all, not even `lasttime`,
    exactly when at most ten milliseconds (modulo 2^32) have passed.
   */
  lemma ComputeIsGated(s: PidState, target: real, input: real, currtime: U32)
    ensures AfterCompute(s, target, input, currtime) == s <==> ElapsedMillis(currtime, s.lasttime) <= 10
  {
    if ElapsedMillis(currtime, s.lasttime) > 10 {
      assert AfterCompute(s, target, input, currtime).lasttime != s.lasttime;
    }
  }

  /**
    A qualifying compute records the time and the input, marks the controller
    initialized and keeps every setting.
   */
  lemma QualifyingComputeRecords(s: PidState, target: real, input: real, currtime: U32)
    requires ElapsedMillis(currtime, s.lasttime) > 10
    ensures var n := AfterCompute(s, target, input, currtime);
            n.lasttime == currtime && n.lastinput == input && n.initialized && SameSettings(s, n)
  {
  }

  /**
    Given ordered integral bounds a qualifying compute leaves the integral term
    within them; it is the plain accumulated sum exactly when that sum is within
    them, and otherwise the bound the sum crossed.
   */
  lemma ITermInBounds(s: PidState, target: real, input: real, currtime: U32)
    requires ElapsedMillis(currtime, s.lasttime) > 10 && s.iMin <= s.iMax
    ensures var n := AfterCompute(s, target, input, currtime);
            s.iMin <= n.iTerm <= s.iMax &&
            var acc := s.iTerm + IntegralStep(target - input, s.iVal, Dt(currtime, s.lasttime));
            (n.iTerm == acc <==> s.iMin <= acc <= s.iMax) &&
            (acc < s.iMin ==> n.iTerm == s.iMin) &&
            (acc > s.iMax ==> n.iTerm == s.iMax)
  {
    GateIsTenMillis(s, currtime);
  }

  /**
    The integral accumulates whether or not the controller was initialized:
    priming only concerns the (unused) derivative.
   */
  lemma IntegralIgnoresPriming(s: PidState, target: real, input: real, currtime: U32)
    ensures AfterCompute(s.(initialized := false), target, input, currtime).iTerm
         == AfterCompute(s.(initialized := true), target, input, currtime).iTerm
    ensures AfterCompute(s.(initialized := false), target, input, currtime).output
         == AfterCompute(s.(initialized := true), target, input, currtime).output
  {
  }

  /**
    Given ordered output bounds a qualifying compute leaves `output` within
    them; it is `p_term + i_term` exactly when that sum is within them, and
    otherwise the bound the sum crossed.
   */
  lemma OutputInBounds(s: PidState, target: real, input: real, currtime: U32)
    requires ElapsedMillis(currtime, s.lasttime) > 10 && s.min <= s.max
    ensures var n := AfterCompute(s, target, input, currtime);
            s.min <= n.output <= s.max &&
            (n.output == RawOutput(s, target, input, currtime) <==>
             s.min <= RawOutput(s, target, input, currtime) <= s.max) &&
            (RawOutput(s, target, input, currtime) < s.min ==> n.output == s.min) &&
            (RawOutput(s, target, input, currtime) > s.max ==> n.output == s.max)
  {
    GateIsTenMillis(s, currtime);
  }

  /**
    The derivative never reaches the output: the d gain and the previous input
    change nothing in what `compute` produces (other than `lastinput` itself).
   */
  lemma DerivativeIsUnused(s: PidState, target: real, input: real, currtime: U32, dVal: real, lastinput: real)
    ensures AfterCompute(s.(dVal := dVal, lastinput := lastinput), target, input, currtime)
         == if Qualifies(s, currtime) then AfterCompute(s, target, input, currtime).(dVal := dVal)
            else s.(dVal := dVal, lastinput := lastinput)
  {
  }

  /** `initialized` is never reset by `compute`, and is set by the first qualifying one. */
  lemma InitializedIsMonotone(s: PidState, target: real, input: real, currtime: U32)
    ensures var n := AfterCompute(s, target, input, currtime);
            (n.initialized <==> s.initialized || ElapsedMillis(currtime, s.lasttime) > 10)
  {
    GateIsTenMillis(s, currtime);
  }

  /** The clock wraps: 5 ms before the 32-bit rollover to 6 ms after it is 11 ms, which qualifies. */
  lemma WrapAroundQualifies(s: PidState)
    requires s.lasttime == TwoTo32 - 5
    ensures Qualifies(s, 6)
  {
    GateIsTenMillis(s, 6);
  }

  /** One call of `compute`. */
  datatype Call = Call(target: real, input: real, currtime: U32)

  /** The fields after a series of calls of `compute`. */
  function Run(s: PidState, calls: seq<Call>): PidState
    decreases |calls|
  {
    if calls == [] then s
    else Run(AfterCompute(s, calls[0].target, calls[0].input, calls[0].currtime), calls[1..])
  }

  /**
    Once initialized, the output and the integral term are within their
    (ordered) bounds; the settings never change under `compute`.
   */
  predicate Settled(s: PidState) {
    s.initialized ==> s.min <= s.output <= s.max && s.iMin <= s.iTerm <= s.iMax
  }

  /** `compute` preserves `Settled` when the bounds are ordered. */
  lemma ComputeKeepsSettled(s: PidState, target: real, input: real, currtime: U32)
    requires s.min <= s.max && s.iMin <= s.iMax && Settled(s)
    ensures Settled(AfterCompute(s, target, input, currtime)) && SameSettings(s, AfterCompute(s, target, input, currtime))
  {
    if Qualifies(s, currtime) {
      GateIsTenMillis(s, currtime);
      OutputInBounds(s, target, input, currtime);
      ITermInBounds(s, target, input, currtime);
    }
  }

  /**
    Over any series of computes with ordered bounds, once the controller is
    initialized `getOutput` returns a value within `[min, max]` and the integral
    term is within `[i_min, i_max]`; once initialized it stays so.
   */
  lemma {:induction false} RunKeepsSettled(s: PidState, calls: seq<Call>)
    requires s.min <= s.max && s.iMin <= s.iMax && Settled(s)
    ensures Settled(Run(s, calls)) && SameSettings(s, Run(s, calls))
    ensures s.initialized ==> Run(s, calls).initialized
    decreases |calls|
  {
    if calls != [] {
      var n := AfterCompute(s, calls[0].target, calls[0].input, calls[0].currtime);
      ComputeKeepsSettled(s, calls[0].target, calls[0].input, calls[0].currtime);
      InitializedIsMonotone(s, calls[0].target, calls[0].input, calls[0].currtime);
      RunKeepsSettled(n, calls[1..]);
    }
  }

  /** A `PID`. */
  class Pid {
    var initialized: bool
    var pVal: real
    var iVal: real
    var dVal: real
    var min: real
    var max: real
    var iMin: real
    var iMax: real
    var iTerm: real
    var lasttime: U32
    var lastinput: real
    var output: real

    /** The fields as a value. */
    function Snapshot(): PidState
      reads this
    {
      PidState(initialized, pVal, iVal, dVal, min, max, iMin, iMax, iTerm, lasttime, lastinput, output)
    }

    /** `PID()`: zero gains, bounds of ±1E100; `output` is left uninitialised. */
    constructor Default(now: U32)
      ensures pVal == 0.0 && iVal == 0.0 && dVal == 0.0
      ensures min == -Huge && max == Huge && iMin == -Huge && iMax == Huge
      ensures iTerm == 0.0 && !initialized && lastinput == 0.0 && lasttime == now
    {
      pVal, iVal, dVal := 0.0, 0.0, 0.0;
      min, max := -Huge, Huge;
      iMin, iMax := -Huge, Huge;
      iTerm := 0.0;
      initialized := false;
      lastinput := 0.0;
      lasttime := now;
    }

    /** `PID(p, i, d)`: the given gains, bounds of ±1E100; `output` is left uninitialised. */
    constructor WithGains(p: real, i: real, d: real, now: U32)
      ensures pVal == p && iVal == i && dVal == d
      ensures min == -Huge && max == Huge && iMin == -Huge && iMax == Huge
      ensures iTerm == 0.0 && !initialized && lastinput == 0.0 && lasttime == now
    {
      pVal, iVal, dVal := p, i, d;
      min, max := -Huge, Huge;
      iMin, iMax := -Huge, Huge;
      iTerm := 0.0;
      initialized := false;
      lastinput := 0.0;
      lasttime := now;
    }

    /**
      `PID(p, i, d, min, max, i_min, i_max, i_offset)`: the integral term starts
      at `i_offset`, not clamped to `[i_min, i_max]`; `output` is left uninitialised.
     */
    constructor WithBounds(p: real, i: real, d: real, min: real, max: real,
                           iMin: real, iMax: real, iOffset: real, now: U32)
      ensures pVal == p && iVal == i && dVal == d
      ensures this.min == min && this.max == max && this.iMin == iMin && this.iMax == iMax
      ensures iTerm == iOffset && !initialized && lastinput == 0.0 && lasttime == now
    {
      pVal, iVal, dVal := p, i, d;
      this.min, this.max := min, max;
      this.iMin, this.iMax := iMin, iMax;
      iTerm := iOffset;
      initialized := false;
      lastinput := 0.0;
      lasttime := now;
    }

    /** `compute(target, input)`, with `pros::millis()` read as `currtime`. */
    method Compute(target: real, input: real, currtime: U32)
      modifies this
      ensures Snapshot() == AfterCompute(old(Snapshot()), target, input, currtime)
    {
      var dt := WrappingSub(currtime, lasttime) as real / 1000.0;
      if dt > 0.01 {
        lasttime := currtime;
        var error := target - input;
        var pTerm := Proportional(error, pVal);
        iTerm := iTerm + IntegralStep(error, iVal, dt);
        if iTerm < iMin {
          iTerm := iMin;
        } else if iTerm > iMax {
          iTerm := iMax;
        }
        var dTerm: real;
        if initialized {
          dTerm := Derivative(lastinput, input, dt, dVal);
        } else {
          dTerm := 0.0;
          initialized := true;
        }
        lastinput := input;
        output := pTerm + iTerm;
        if output < min {
          output := min;
        } else if output > max {
          output := max;
        }
      }
    }

    /** `getOutput()`: reads `output` and changes nothing. */
    method GetOutput() returns (o: real)
      ensures o == output
    {
      o := output;
    }

    method SetConstants(p: real, i: real, d: real)
      modifies this
      ensures Snapshot() == old(Snapshot()).(pVal := p, iVal := i, dVal := d)
    {
      pVal, iVal, dVal := p, i, d;
    }

    method SetBounds(min: real, max: real)
      modifies this
      ensures Snapshot() == old(Snapshot()).(min := min, max := max)
    {
      this.min, this.max := min, max;
    }

    method SetIBounds(iMin: real, iMax: real)
      modifies this
      ensures Snapshot() == old(Snapshot()).(iMin := iMin, iMax := iMax)
    {
      this.iMin, this.iMax := iMin, iMax;
    }
  }
}
