// The PSU control panel of the GUI (gui/widgets/psu_panel.py): the interlock that
// enables its buttons, the step ramp and the time/current profile that run on a
// single-shot timer, and the stop button. Calls into the PSU client modules and
// error dialogs are recorded in an effect log; a call that may raise takes a
// parameter saying whether it returned.

module PsuPanel {
  import opened Wrappers
  import opened Text

  /** psu mode from the configuration: 'gen3', 'mk1', anything else behaves as gen2. */
  datatype Mode = Gen3 | Mk1 | Gen2

  /** What the panel does outside itself, in order. */
  datatype Effect =
    | SetCurrent(amps: real, voltage: Option<real>)  // psu_client.set_current
    | Stop                                           // psu_client.stop
    | SetVoltageCurrent(volts: real, amps: real)     // psu_rtu_client.set_voltage_current
    | SafeShutdown                                   // psu_rtu_client.safe_shutdown
    | SetVoltageMk1(volts: real)
    | EnableOutputMk1(on: bool)
    | Changed(amps: real)                            // the current_changed signal
    | Schedule(delayMs: real)                        // the single-shot timer is started
    | Error(title: string)                           // an error dialog
    | Warning(title: string)                         // the interlock warning dialog

  /** The exceptions _apply_settings tells apart, in the order of its except clauses. */
  datatype Exc = ValueErr | ConnectionErr | OtherErr

  /** How a call into the PSU client modules ended. */
  datatype Outcome = Returned | Raised(exc: Exc)

  /** The title of the dialog _apply_settings shows for an exception. */
  function ApplyErrorTitle(e: Exc): (title: string)
    ensures title == "Invalid Input" <==> e == ValueErr
    ensures title == "Connection Error" <==> e == ConnectionErr
  {
    match e
    case ValueErr => "Invalid Input"
    case ConnectionErr => "Connection Error"
    case OtherErr => "Error"
  }

  /**
   * How mk1's preparation before a ramp or profile went: the configured maximum voltage
   * (None when reading the PSU configuration raised), and how many of _set_voltage_mk1
   * and _enable_output_mk1 returned before one of them raised (2 when both returned).
   */
  datatype Prep = Prep(maxVoltage: Option<real>, returned: nat)

  predicate Prepared(p: Prep) {
    p.maxVoltage.Some? && p.returned >= 2
  }

  /** The preparation calls that returned, in order: neither, _set_voltage_mk1 alone, or both. */
  function PrepEffects(p: Prep): (es: seq<Effect>)
    ensures SetCurrents(es) == [] && Delays(es) == []
    ensures Prepared(p) <==> p.maxVoltage.Some? && es == [SetVoltageMk1(p.maxVoltage.value), EnableOutputMk1(true)]
    ensures p.maxVoltage.None? || p.returned == 0 ==> es == []
  {
    if p.maxVoltage.None? || p.returned == 0 then []
    else
      var v := p.maxVoltage.value;
      var es := if p.returned == 1 then [SetVoltageMk1(v)] else [SetVoltageMk1(v), EnableOutputMk1(true)];
      PreparedFilters(es, v);
      es
  }

  /** One profile point: seconds from the start and amps. */
  datatype Point = Point(time: real, current: real)

  /** The amps of the set_current calls in a log, in order. */
  function SetCurrents(es: seq<Effect>): (amps: seq<real>)
    ensures |amps| <= |es|
  {
    if es == [] then [] else (if es[0].SetCurrent? then [es[0].amps] else []) + SetCurrents(es[1..])
  }

  /** The delays of the timer starts in a log, in order. */
  function Delays(es: seq<Effect>): (ds: seq<real>)
    ensures |ds| <= |es|
  {
    if es == [] then [] else (if es[0].Schedule? then [es[0].delayMs] else []) + Delays(es[1..])
  }

  lemma {:induction false} FiltersAppend(a: seq<Effect>, b: seq<Effect>)
    ensures SetCurrents(a + b) == SetCurrents(a) + SetCurrents(b)
    ensures Delays(a + b) == Delays(a) + Delays(b)
  {
    if a != [] {
      assert (a + b)[1..] == a[1..] + b;
      FiltersAppend(a[1..], b);
    } else {
      assert a + b == b;
    }
  }

  /** One step's set_current and signal, followed by the rest of the log. */
  lemma StepFilters(amps: real, voltage: Option<real>, tail: seq<Effect>)
    ensures SetCurrents([SetCurrent(amps, voltage), Changed(amps)] + tail) == [amps] + SetCurrents(tail)
    ensures Delays([SetCurrent(amps, voltage), Changed(amps)] + tail) == Delays(tail)
  {
    var es := [SetCurrent(amps, voltage), Changed(amps)] + tail;
    assert es[1..][1..] == tail;
  }

  lemma Assoc(a: seq<Effect>, b: seq<Effect>, c: seq<Effect>)
    ensures a + b + c == a + (b + c)
  {
  }

  /** mk1's preparation before a ramp or profile adds nothing to either filter. */
  lemma PreparedFilters(prepared: seq<Effect>, volts: real)
    requires prepared == [] || prepared == [SetVoltageMk1(volts)] || prepared == [SetVoltageMk1(volts), EnableOutputMk1(true)]
    ensures SetCurrents(prepared) == [] && Delays(prepared) == []
  {
    if prepared != [] {
      assert prepared[1..] == [] || prepared[1..][1..] == [];
    }
  }

  /** What one timer-driven step adds to the log: its set_current, then the tail's timer starts. */
  lemma AppendStep(added: seq<Effect>, amps: real, voltage: Option<real>, tail: seq<Effect>)
    requires SetCurrents(tail) == []
    ensures SetCurrents(added + ([SetCurrent(amps, voltage), Changed(amps)] + tail)) == SetCurrents(added) + [amps]
    ensures Delays(added + ([SetCurrent(amps, voltage), Changed(amps)] + tail)) == Delays(added) + Delays(tail)
  {
    FiltersAppend(added, [SetCurrent(amps, voltage), Changed(amps)] + tail);
    StepFilters(amps, voltage, tail);
  }

  lemma ScheduleFilters(delayMs: real)
    ensures SetCurrents([Schedule(delayMs)]) == [] && Delays([Schedule(delayMs)]) == [delayMs]
  {
    assert [Schedule(delayMs)][1..] == [];
  }

  /** The log grows by a step's head, then its tail. */
  lemma Extend(log: seq<Effect>, added: seq<Effect>, head: seq<Effect>, tail: seq<Effect>)
    ensures log + added + head + tail == log + (added + (head + tail))
  {
  }

  /** The set-point of ramp step k out of `steps`: (k / steps) * max. */
  function RampTarget(k: int, steps: int, maxCurrent: real): real
    requires steps != 0
  {
    (k as real / steps as real) * maxCurrent
  }

  lemma RampStartsAtZero(steps: int, maxCurrent: real)
    ensures steps != 0 ==> RampTarget(0, steps, maxCurrent) == 0.0
  {
  }

  lemma RampEndsAtTarget(steps: int, maxCurrent: real)
    ensures steps != 0 ==> RampTarget(steps, steps, maxCurrent) == maxCurrent
  {
  }

  /** The set-points of the first `count` ramp steps. */
  function RampTargets(count: nat, steps: int, maxCurrent: real): (ts: seq<real>)
    requires steps != 0
    ensures |ts| == count
  {
    seq(count, k => RampTarget(k, steps, maxCurrent))
  }

  lemma RampTargetsSnoc(count: nat, steps: int, maxCurrent: real)
    requires steps != 0
    ensures RampTargets(count, steps, maxCurrent) + [RampTarget(count, steps, maxCurrent)] ==
      RampTargets(count + 1, steps, maxCurrent)
  {
  }

  /** A ramp step appends the next set-point to the ramp's set-points so far. */
  lemma RampLogStep(added: seq<Effect>, k: nat, steps: int, maxCurrent: real, voltage: Option<real>, tail: seq<Effect>)
    requires steps != 0 && SetCurrents(added) == RampTargets(k, steps, maxCurrent) && SetCurrents(tail) == []
    ensures var target := RampTarget(k, steps, maxCurrent);
      SetCurrents(added + ([SetCurrent(target, voltage), Changed(target)] + tail)) == RampTargets(k + 1, steps, maxCurrent)
  {
    AppendStep(added, RampTarget(k, steps, maxCurrent), voltage, tail);
    RampTargetsSnoc(k, steps, maxCurrent);
  }

  /** A timer-driven ramp step extends the log by its head and tail, and the set-points by one. */
  lemma RampTick(log: seq<Effect>, added: seq<Effect>, k: nat, steps: int, maxCurrent: real,
                 voltage: Option<real>, mode: Mode, delayMs: real)
    requires steps != 0 && SetCurrents(added) == RampTargets(k, steps, maxCurrent)
    ensures var target := RampTarget(k, steps, maxCurrent);
      var head := [SetCurrent(target, voltage), Changed(target)];
      var tail := if k + 1 > steps then FinishEffects(mode) else [Schedule(delayMs)];
      log + added + head + tail == log + (added + (head + tail)) &&
      SetCurrents(added + (head + tail)) == RampTargets(k + 1, steps, maxCurrent)
  {
    var target := RampTarget(k, steps, maxCurrent);
    var tail := if k + 1 > steps then FinishEffects(mode) else [Schedule(delayMs)];
    ScheduleFilters(delayMs);
    Extend(log, added, [SetCurrent(target, voltage), Changed(target)], tail);
    RampLogStep(added, k, steps, maxCurrent, voltage, tail);
  }

  /** Scaling by a non-negative factor keeps the order of fractions in [0, 1]. */
  lemma ScaleFractions(fj: real, fk: real, c: real)
    requires 0.0 <= fj <= fk <= 1.0 && c >= 0.0
    ensures 0.0 <= fj * c <= fk * c <= c
  {
    assert fk * c - fj * c == (fk - fj) * c;
    assert c - fk * c == (1.0 - fk) * c;
  }

  lemma Fractions(j: int, k: int, steps: int)
    requires 0 <= j <= k <= steps && steps >= 1
    ensures 0.0 <= j as real / steps as real <= k as real / steps as real <= 1.0
  {
  }

  /** A full ramp starts at zero, ends exactly at the target, and never decreases for a non-negative target. */
  lemma RampShape(steps: nat, maxCurrent: real)
    requires steps >= 1
    ensures var ts := RampTargets(steps + 1, steps, maxCurrent);
      ts[0] == 0.0 && ts[steps] == maxCurrent &&
      (maxCurrent >= 0.0 ==> forall j, k :: 0 <= j <= k <= steps ==> 0.0 <= ts[j] <= ts[k] <= maxCurrent)
  {
    var ts := RampTargets(steps + 1, steps, maxCurrent);
    RampStartsAtZero(steps, maxCurrent);
    RampEndsAtTarget(steps, maxCurrent);
    if maxCurrent >= 0.0 {
      forall j, k | 0 <= j <= k <= steps
        ensures 0.0 <= ts[j] <= ts[k] <= maxCurrent
      {
        Fractions(j, k, steps);
        ScaleFractions(j as real / steps as real, k as real / steps as real, maxCurrent);
      }
    }
  }

  /** The amps of the first `count` profile points. */
  function Currents(points: seq<Point>, count: nat): (cs: seq<real>)
    requires count <= |points|
    ensures |cs| == count
  {
    seq(count, k requires 0 <= k < count => points[k].current)
  }

  lemma CurrentsSnoc(points: seq<Point>, count: nat)
    requires count < |points|
    ensures Currents(points, count) + [points[count].current] == Currents(points, count + 1)
  {
  }

  /** The timer delay before point k + 1: int((t[k+1] - t[k]) * 1000) ms. */
  function Gap(points: seq<Point>, k: nat): real
    requires k + 1 < |points|
  {
    Trunc((points[k + 1].time - points[k].time) * 1000.0) as real
  }

  /** The delays scheduled after the first `count` points. */
  function Gaps(points: seq<Point>, count: nat): (gs: seq<real>)
    requires count < |points|
    ensures |gs| == count
  {
    seq(count, k requires 0 <= k < count => Gap(points, k))
  }

  lemma GapsSnoc(points: seq<Point>, count: nat)
    requires count + 1 < |points|
    ensures Gaps(points, count) + [Gap(points, count)] == Gaps(points, count + 1)
  {
  }

  /** A timer-driven profile step extends the log by its head and tail, the set-points and delays by one. */
  lemma ProfileTick(log: seq<Effect>, added: seq<Effect>, points: seq<Point>, i: nat, voltage: Option<real>, mode: Mode)
    requires i < |points| && SetCurrents(added) == Currents(points, i) && Delays(added) == Gaps(points, i)
    ensures var head := [SetCurrent(points[i].current, voltage), Changed(points[i].current)];
      var tail := if i + 1 >= |points| then FinishEffects(mode) else [Schedule(Gap(points, i))];
      log + added + head + tail == log + (added + (head + tail)) &&
      SetCurrents(added + (head + tail)) == Currents(points, i + 1) &&
      Delays(added + (head + tail)) == (if i + 1 >= |points| then Gaps(points, i) else Gaps(points, i + 1))
  {
    var head := [SetCurrent(points[i].current, voltage), Changed(points[i].current)];
    var tail := if i + 1 >= |points| then FinishEffects(mode) else [Schedule(Gap(points, i))];
    Extend(log, added, head, tail);
    if i + 1 < |points| {
      ScheduleFilters(Gap(points, i));
      GapsSnoc(points, i);
    }
    AppendStep(added, points[i].current, voltage, tail);
    CurrentsSnoc(points, i);
  }

  /** What finishing a ramp or profile does outside the panel: mk1 switches its outputs off. */
  function FinishEffects(mode: Mode): (es: seq<Effect>)
    ensures SetCurrents(es) == [] && Delays(es) == []
  {
    if mode == Mk1 then [EnableOutputMk1(false)] else []
  }

  /** What cancelling does: stop, announce zero amps, then finish. */
  function CancelEffects(mode: Mode): (es: seq<Effect>)
    ensures SetCurrents(es) == [] && Delays(es) == []
  {
    assert [Stop, Changed(0.0)] + FinishEffects(mode) == [Stop] + ([Changed(0.0)] + FinishEffects(mode));
    [Stop, Changed(0.0)] + FinishEffects(mode)
  }

  // ---------------------------------------------------------------- progress display

  /** A remaining time as shown: hours, minutes, seconds. */
  datatype Clock = Clock(hours: int, minutes: int, seconds: int)

  /** max(0, r) split as int(r // 3600), int((r % 3600) // 60), int(r % 60). */
  function Hms(remaining: real): (c: Clock)
    ensures c.hours >= 0 && 0 <= c.minutes < 60 && 0 <= c.seconds < 60
    ensures c.hours * 3600 + c.minutes * 60 + c.seconds == (if remaining > 0.0 then remaining else 0.0).Floor
  {
    var r := if remaining > 0.0 then remaining else 0.0;
    var h := (r / 3600.0).Floor;
    var a := r - 3600.0 * h as real;
    var m := (a / 60.0).Floor;
    var s := (r - 60.0 * (r / 60.0).Floor as real).Floor;
    assert 0.0 <= a < 3600.0;
    assert 60.0 * m as real <= a < 60.0 * m as real + 60.0;
    assert (r / 60.0).Floor == 60 * h + m;
    assert s == (a - 60.0 * m as real).Floor;
    assert r.Floor == 3600 * h + 60 * m + s by {
      assert r == (3600 * h + 60 * m) as real + (a - 60.0 * m as real);
    }
    Clock(h, m, s)
  }

  /** min(100, int(part / whole * 100)) when whole > 0, else 0. */
  function Percent(part: real, whole: real): (p: int)
    ensures p <= 100
    ensures whole <= 0.0 ==> p == 0
    ensures whole > 0.0 && part >= 0.0 ==> 0 <= p
    ensures whole > 0.0 && part >= whole ==> p == 100
  {
    if whole > 0.0 then
      var t := Trunc(part / whole * 100.0);
      if t < 100 then t else 100
    else 0
  }

  datatype Progress = Progress(percent: int, clock: Clock)

  /** The enabled flags of the ENTER, RAMP, PROFILE and STOP buttons. */
  datatype Buttons = Buttons(enter: bool, ramp: bool, profile: bool, stop: bool)

  /** The ramp_* attributes: the next step, the step count, seconds per step, the target and gen3's voltage. */
  datatype RampRun = RampRun(step: int, maxSteps: int, stepDuration: real, maxCurrent: real, voltage: Option<real>)

  /** The profile_* attributes: the loaded points, the next point and gen3's voltage. */
  datatype ProfileRun = ProfileRun(data: Option<seq<Point>>, index: int, voltage: Option<real>)

  const NoProfile := ProfileRun(None, 0, None)

  class Panel {
    const mode: Mode
    var contactorClosed: bool
    var psuAvailable: bool
    var currentSetpoint: real
    var isRamping: bool
    var isProfiling: bool
    var buttons: Buttons
    var inputsEnabled: bool
    var currentText: string     // the current input field
    var voltageText: string     // the voltage input field
    var ramp: RampRun
    var profile: ProfileRun
    var timerSet: bool          // profile_timer holds a timer
    var progressRunning: bool   // the one-second progress timer
    var operationStart: Option<real>
    var effects: seq<Effect>

    /** The interlock: gen3 needs a PSU; the other modes also need the contactor closed. */
    predicate Interlock()
      reads this
    {
      if mode == Gen3 then psuAvailable else contactorClosed && psuAvailable
    }

    /** The button flags as _update_button_states leaves them. */
    predicate ButtonsMatch()
      reads this
    {
      var free := Interlock() && !isRamping && !isProfiling;
      buttons == Buttons(free, free, free, psuAvailable)
    }

    predicate Valid()
      reads this
    {
      ButtonsMatch() &&
      (isProfiling ==> profile.data.Some? && 0 <= profile.index < |profile.data.value|)
    }

    /** Every field but the effect log and the buttons is as before. */
    twostate predicate StateUnchanged()
      reads this
    {
      contactorClosed == old(contactorClosed) && psuAvailable == old(psuAvailable) &&
      currentSetpoint == old(currentSetpoint) && isRamping == old(isRamping) &&
      isProfiling == old(isProfiling) && inputsEnabled == old(inputsEnabled) &&
      currentText == old(currentText) && voltageText == old(voltageText) &&
      ramp == old(ramp) && profile == old(profile) && timerSet == old(timerSet) &&
      progressRunning == old(progressRunning) && operationStart == old(operationStart)
    }

    constructor (mode: Mode)
      ensures this.mode == mode && Valid()
      ensures !contactorClosed && !psuAvailable && currentSetpoint == 0.0 && !isRamping && !isProfiling
      ensures buttons == Buttons(false, false, false, false)
      ensures profile == NoProfile && effects == []
    {
      this.mode := mode;
      contactorClosed, psuAvailable, currentSetpoint := false, false, 0.0;
      isRamping, isProfiling := false, false;
      buttons := Buttons(false, false, false, false);
      inputsEnabled, currentText, voltageText := true, "", "";
      ramp := RampRun(0, 0, 0.0, 0.0, None);
      profile := NoProfile;
      timerSet, progressRunning, operationStart := false, false, None;
      effects := [];
    }

    method UpdateButtonStates()
      modifies this`buttons
      ensures ButtonsMatch()
    {
      var interlockOk := if mode == Gen3 then psuAvailable else contactorClosed && psuAvailable;
      var free := interlockOk && !isRamping && !isProfiling;
      buttons := Buttons(free, free, free, psuAvailable);
    }

    method SetContactorState(closed: bool)
      requires Valid()
      modifies this`contactorClosed, this`buttons
      ensures Valid() && contactorClosed == closed
      ensures buttons.enter <==> (mode == Gen3 || closed) && psuAvailable && !isRamping && !isProfiling
    {
      contactorClosed := closed;
      UpdateButtonStates();
    }

    method SetHardwareAvailable(psuCount: int)
      requires Valid()
      modifies this`psuAvailable, this`inputsEnabled, this`buttons
      ensures Valid() && psuAvailable == (psuCount > 0) && inputsEnabled == psuAvailable
      ensures buttons.stop == (psuCount > 0)
    {
      psuAvailable := psuCount > 0;
      inputsEnabled := psuAvailable;
      UpdateButtonStates();
    }

    /**
     * The ENTER button. `accepted` is what set_voltage_current answers (gen3);
     * `setOutcome` and `enableOutcome` say how set_current and, for mk1,
     * _enable_output_mk1 ended. A call that raised is not in the log, the calls before
     * it are, and the exception picks the dialog title.
     */
    method ApplySettings(accepted: bool, setOutcome: Outcome, enableOutcome: Outcome)
      requires Valid()
      modifies this`currentSetpoint, this`effects
      ensures Valid()
      ensures old(currentText) == [] ==> currentSetpoint == old(currentSetpoint) && effects == old(effects)
      ensures currentSetpoint != old(currentSetpoint) ==> ParseReal(currentText) == Some(currentSetpoint)
      ensures currentText != [] && ParseReal(currentText).None? ==>
        effects == old(effects) + [Error("Invalid Input")] && currentSetpoint == old(currentSetpoint)
      ensures mode == Gen3 && currentText != [] && ParseReal(currentText).Some? && voltageText == [] ==>
        effects == old(effects) + [Error("Missing Input")] && currentSetpoint == old(currentSetpoint)
      ensures mode != Gen2 && currentText != [] && ParseReal(currentText).Some? && voltageText != [] &&
              ParseReal(voltageText).None? ==>
        effects == old(effects) + [Error("Invalid Input")] && currentSetpoint == old(currentSetpoint)
      ensures (mode == Gen3 && currentText != [] && ParseReal(currentText).Some? && voltageText != [] &&
               ParseReal(voltageText).Some?) ==>
        (var amps, volts := ParseReal(currentText).value, ParseReal(voltageText).value;
         effects == old(effects) + [SetVoltageCurrent(volts, amps)] +
           (if accepted then [Changed(amps)] else [Error("Error")]) &&
         currentSetpoint == (if accepted then amps else old(currentSetpoint)))
      ensures (mode == Mk1 && currentText != [] && ParseReal(currentText).Some? &&
               (voltageText == [] || ParseReal(voltageText).Some?)) ==>
        (var amps := ParseReal(currentText).value;
         var volts := if voltageText == [] then 120.0 else ParseReal(voltageText).value;
         var done := setOutcome.Returned? && enableOutcome.Returned?;
         effects == old(effects) +
           (if setOutcome.Raised? then [Error(ApplyErrorTitle(setOutcome.exc))]
            else if enableOutcome.Raised? then [SetCurrent(amps, Some(volts)), Error(ApplyErrorTitle(enableOutcome.exc))]
            else [SetCurrent(amps, Some(volts)), EnableOutputMk1(true), Changed(amps)]) &&
         currentSetpoint == (if done then amps else old(currentSetpoint)))
      ensures (mode == Gen2 && currentText != [] && ParseReal(currentText).Some?) ==>
        (var amps := ParseReal(currentText).value;
         effects == old(effects) +
           (if setOutcome.Returned? then [SetCurrent(amps, None), Changed(amps)]
            else [Error(ApplyErrorTitle(setOutcome.exc))]) &&
         currentSetpoint == (if setOutcome.Returned? then amps else old(currentSetpoint)))
    {
      if currentText == [] {
        return;
      }
      var parsed := ParseReal(currentText);
      if parsed.None? {
        effects := effects + [Error("Invalid Input")];
        return;
      }
      var amps := parsed.value;
      if mode == Gen3 {
        if voltageText == [] {
          effects := effects + [Error("Missing Input")];
          return;
        }
        var volts := ParseReal(voltageText);
        if volts.None? {
          effects := effects + [Error("Invalid Input")];
          return;
        }
        effects := effects + [SetVoltageCurrent(volts.value, amps)];
        if !accepted {
          effects := effects + [Error("Error")];
          return;
        }
      } else if mode == Mk1 {
        var volts := if voltageText == [] then Some(120.0) else ParseReal(voltageText);
        if volts.None? {
          effects := effects + [Error("Invalid Input")];
          return;
        }
        if setOutcome.Raised? {
          effects := effects + [Error(ApplyErrorTitle(setOutcome.exc))];
          return;
        }
        effects := effects + [SetCurrent(amps, Some(volts.value))];
        if enableOutcome.Raised? {
          effects := effects + [Error(ApplyErrorTitle(enableOutcome.exc))];
          return;
        }
        effects := effects + [EnableOutputMk1(true)];
      } else {
        if setOutcome.Raised? {
          effects := effects + [Error(ApplyErrorTitle(setOutcome.exc))];
          return;
        }
        effects := effects + [SetCurrent(amps, None)];
      }
      currentSetpoint := amps;
      effects := effects + [Changed(amps)];
    }

    // ------------------------------------------------------------ ramp

    /** The checks of _start_ramp that all pass before the ramp is set up. */
    predicate RampWillStart(mk1Prep: Prep)
      reads this
    {
      (mode == Gen3 || contactorClosed) && currentText != [] && ParseReal(currentText).Some? &&
      (mode == Mk1 ==> Prepared(mk1Prep)) &&
      (mode == Gen3 ==> voltageText != [] && ParseReal(voltageText).Some?)
    }

    method FinishRamp()
      requires Valid()
      modifies this`effects, this`isRamping, this`ramp, this`progressRunning, this`buttons
      ensures Valid() && !isRamping && ramp == old(ramp).(voltage := None) && !progressRunning
      ensures effects == old(effects) + FinishEffects(mode)
    {
      effects := effects + FinishEffects(mode);
      isRamping := false;
      ramp := ramp.(voltage := None);
      progressRunning := false;
      UpdateButtonStates();
    }

    method CancelRamp()
      requires Valid()
      modifies this`effects, this`isRamping, this`ramp, this`progressRunning, this`buttons, this`timerSet,
        this`currentSetpoint
      ensures Valid() && !isRamping && ramp == old(ramp).(voltage := None) && !timerSet && currentSetpoint == 0.0
      ensures effects == old(effects) + CancelEffects(mode)
    {
      timerSet := false;
      currentSetpoint := 0.0;
      effects := effects + [Stop, Changed(0.0)];
      FinishRamp();
      Assoc(old(effects), [Stop, Changed(0.0)], FinishEffects(mode));
    }

    /**
     * One step of the ramp, run when the step timer fires. `ok` says whether
     * set_current returned; a division by zero (no steps) fails the same way.
     */
    method ExecuteRampStep(ok: bool)
      requires Valid()
      modifies this`effects, this`isRamping, this`ramp, this`progressRunning, this`buttons, this`timerSet,
        this`currentSetpoint, this`currentText
      ensures Valid()
      ensures !old(isRamping) ==> unchanged(this)
      ensures old(isRamping) && (old(ramp.maxSteps) == 0 || !ok) ==>
        (effects == old(effects) + [Error("Ramp Error")] + CancelEffects(mode) &&
         !isRamping && !timerSet && currentSetpoint == 0.0 && ramp == old(ramp).(voltage := None))
      ensures old(isRamping) && old(ramp.maxSteps) != 0 && ok ==>
        (var r := old(ramp);
         var target := RampTarget(r.step, r.maxSteps, r.maxCurrent);
         var done := r.step + 1 > r.maxSteps;
         ramp == r.(step := r.step + 1, voltage := if done then None else r.voltage) &&
         currentSetpoint == target && isRamping == !done &&
         effects == old(effects) + [SetCurrent(target, if mode == Gen3 then r.voltage else None), Changed(target)] +
           (if done then FinishEffects(mode) else [Schedule(r.stepDuration * 1000.0)]) &&
         (done ==> currentText == Fixed(r.maxCurrent, 1)) && (!done ==> timerSet))
    {
      if !isRamping {
        return;
      }
      if ramp.maxSteps == 0 || !ok {
        effects := effects + [Error("Ramp Error")];
        CancelRamp();
        return;
      }
      var target := RampTarget(ramp.step, ramp.maxSteps, ramp.maxCurrent);
      currentSetpoint := target;
      effects := effects + [SetCurrent(target, if mode == Gen3 then ramp.voltage else None), Changed(target)];
      ramp := ramp.(step := ramp.step + 1);
      if ramp.step > ramp.maxSteps {
        currentText := Fixed(ramp.maxCurrent, 1);
        FinishRamp();
        return;
      }
      timerSet := true;
      effects := effects + [Schedule(ramp.stepDuration * 1000.0)];
    }

    /** The ramp's set-up, then its first step at once. */
    method LaunchRamp(numSteps: int, stepDuration: real, maxCurrent: real, voltage: Option<real>, firstOk: bool)
      returns (ghost rest: seq<Effect>)
      requires Valid()
      modifies this`effects, this`isRamping, this`ramp, this`progressRunning, this`buttons, this`timerSet,
        this`currentSetpoint, this`currentText
      ensures Valid() && effects == old(effects) + rest
      ensures ramp.maxSteps == numSteps && ramp.maxCurrent == maxCurrent && ramp.stepDuration == stepDuration
      ensures numSteps >= 1 && firstOk ==>
        ramp.step == 1 && isRamping && currentSetpoint == 0.0 && ramp.voltage == voltage &&
        rest == [SetCurrent(0.0, if mode == Gen3 then voltage else None), Changed(0.0)] +
          [Schedule(stepDuration * 1000.0)]
    {
      ramp := RampRun(0, numSteps, stepDuration, maxCurrent, voltage);
      isRamping := true;
      UpdateButtonStates();
      progressRunning := true;
      RampStartsAtZero(numSteps, maxCurrent);
      ghost var before := effects;
      ExecuteRampStep(firstOk);
      rest := effects[|before|..];
      assert effects == before + rest;
    }

    /**
     * The end of _start_ramp: mk1's preparation calls, the set-up, then the first
     * step at once.
     */
    method BeginRamp(prepared: seq<Effect>, numSteps: int, stepDuration: real, maxCurrent: real,
                     voltage: Option<real>, now: real, firstOk: bool) returns (ghost added: seq<Effect>)
      requires Valid() && SetCurrents(prepared) == []
      modifies this`effects, this`isRamping, this`ramp, this`progressRunning, this`buttons, this`timerSet,
        this`currentSetpoint, this`currentText, this`operationStart
      ensures Valid() && operationStart == Some(now) && effects == old(effects) + added
      ensures ramp.maxSteps == numSteps && ramp.maxCurrent == maxCurrent && ramp.stepDuration == stepDuration
      ensures numSteps >= 1 && firstOk ==>
        ramp.step == 1 && isRamping && currentSetpoint == 0.0 && ramp.voltage == voltage &&
        SetCurrents(added) == RampTargets(1, numSteps, maxCurrent)
    {
      effects := effects + prepared;
      operationStart := Some(now);
      ghost var rest := LaunchRamp(numSteps, stepDuration, maxCurrent, voltage, firstOk);
      added := prepared + rest;
      Assoc(old(effects), prepared, rest);
      if numSteps >= 1 && firstOk {
        ScheduleFilters(stepDuration * 1000.0);
        RampLogStep(prepared, 0, numSteps, maxCurrent, if mode == Gen3 then voltage else None,
          [Schedule(stepDuration * 1000.0)]);
      }
    }

    /**
     * The RAMP button. get_ramp_config's answer is (numSteps, stepDuration); `mk1Prep`
     * says how mk1's preparation calls went. A refused start shows one dialog, after
     * the preparation calls that returned, and changes nothing else.
     */
    method StartRamp(numSteps: int, stepDuration: real, mk1Prep: Prep, now: real, firstOk: bool)
      returns (ghost added: seq<Effect>)
      requires Valid()
      modifies this`effects, this`isRamping, this`ramp, this`progressRunning, this`buttons, this`timerSet,
        this`currentSetpoint, this`currentText, this`operationStart
      ensures Valid() && effects == old(effects) + added
      ensures !old(RampWillStart(mk1Prep)) ==> StateUnchanged()
      ensures old(mode != Gen3 && !contactorClosed) ==> added == [Warning("Contactor Open")]
      ensures old((mode == Gen3 || contactorClosed) && currentText == []) ==> added == [Error("Missing Input")]
      ensures old((mode == Gen3 || contactorClosed) && currentText != [] && ParseReal(currentText).None?) ==>
        added == [Error("Invalid Input")]
      ensures old(mode == Mk1 && contactorClosed && currentText != [] && ParseReal(currentText).Some?) &&
              !Prepared(mk1Prep) ==>
        added == PrepEffects(mk1Prep) + [Error("Ramp Setup Error")]
      ensures old(mode == Gen3 && currentText != [] && ParseReal(currentText).Some? && voltageText == []) ==>
        added == [Error("Missing Input")]
      ensures old(mode == Gen3 && currentText != [] && ParseReal(currentText).Some? && voltageText != [] &&
                  ParseReal(voltageText).None?) ==>
        added == [Error("Invalid Input")]
      ensures old(RampWillStart(mk1Prep)) ==>
        (var amps := ParseReal(old(currentText)).value;
         ramp.maxSteps == numSteps && ramp.maxCurrent == amps && ramp.stepDuration == stepDuration &&
         operationStart == Some(now) &&
         (numSteps >= 1 && firstOk ==>
           ramp.step == 1 && isRamping && currentSetpoint == 0.0 &&
           SetCurrents(added) == RampTargets(1, numSteps, amps)))
    {
      if mode != Gen3 && !contactorClosed {
        effects := effects + [Warning("Contactor Open")];
        return [Warning("Contactor Open")];
      }
      if currentText == [] {
        effects := effects + [Error("Missing Input")];
        return [Error("Missing Input")];
      }
      var parsed := ParseReal(currentText);
      if parsed.None? {
        effects := effects + [Error("Invalid Input")];
        return [Error("Invalid Input")];
      }
      var prepared: seq<Effect> := [];
      if mode == Mk1 {
        prepared := PrepEffects(mk1Prep);
        if !Prepared(mk1Prep) {
          effects := effects + (prepared + [Error("Ramp Setup Error")]);
          return prepared + [Error("Ramp Setup Error")];
        }
      }
      var voltage: Option<real> := None;
      if mode == Gen3 {
        if voltageText == [] || currentText == [] {
          effects := effects + [Error("Missing Input")];
          return [Error("Missing Input")];
        }
        voltage := ParseReal(voltageText);
        if voltage.None? {
          effects := effects + [Error("Invalid Input")];
          return [Error("Invalid Input")];
        }
      }
      added := BeginRamp(prepared, numSteps, stepDuration, parsed.value, voltage, now, firstOk);
    }

    /**
     * A ramp that starts, followed by the step timer firing until the ramp ends, with
     * every set_current returning: the set-points are k/N of the target for k = 0..N.
     */
    method RunRamp(numSteps: int, stepDuration: real, mk1Prep: Prep, now: real)
      returns (ghost added: seq<Effect>)
      requires Valid() && RampWillStart(mk1Prep) && numSteps >= 1
      modifies this`effects, this`isRamping, this`ramp, this`progressRunning, this`buttons, this`timerSet,
        this`currentSetpoint, this`currentText, this`operationStart
      ensures Valid() && !isRamping && effects == old(effects) + added
      ensures SetCurrents(added) == RampTargets(numSteps + 1, numSteps, ParseReal(old(currentText)).value)
      ensures currentSetpoint == ParseReal(old(currentText)).value
      ensures currentText == Fixed(ParseReal(old(currentText)).value, 1)
    {
      var amps := ParseReal(currentText).value;
      added := StartRamp(numSteps, stepDuration, mk1Prep, now, true);
      assert ramp.step == 1 && isRamping;
      ghost var more := RampTimer(added);
      Assoc(old(effects), added, more);
      added := added + more;
    }

    /**
     * The step timer of a running ramp firing, with every set_current returning, until
     * the ramp ends: the set-points continue k/N of the target up to k = N.
     */
    method RampTimer(ghost prior: seq<Effect>) returns (ghost added: seq<Effect>)
      requires Valid() && isRamping && ramp.maxSteps >= 1 && 1 <= ramp.step <= ramp.maxSteps
      requires SetCurrents(prior) == RampTargets(ramp.step, ramp.maxSteps, ramp.maxCurrent)
      modifies this`effects, this`isRamping, this`ramp, this`progressRunning, this`buttons, this`timerSet,
        this`currentSetpoint, this`currentText
      ensures Valid() && !isRamping && effects == old(effects) + added
      ensures SetCurrents(prior + added) == RampTargets(old(ramp.maxSteps) + 1, old(ramp.maxSteps), old(ramp.maxCurrent))
      ensures currentSetpoint == old(ramp.maxCurrent)
      ensures currentText == Fixed(old(ramp.maxCurrent), 1)
    {
      var numSteps, amps, stepDuration := ramp.maxSteps, ramp.maxCurrent, ramp.stepDuration;
      added := [];
      ghost var all := prior;
      while isRamping
        invariant Valid() && effects == old(effects) + added && all == prior + added
        invariant ramp.maxSteps == numSteps && ramp.maxCurrent == amps && ramp.stepDuration == stepDuration
        invariant 1 <= ramp.step <= numSteps + 1
        invariant isRamping <==> ramp.step <= numSteps
        invariant SetCurrents(all) == RampTargets(ramp.step, numSteps, amps)
        invariant !isRamping ==> currentSetpoint == RampTarget(numSteps, numSteps, amps) && currentText == Fixed(amps, 1)
        decreases numSteps + 1 - ramp.step
      {
        ghost var k := ramp.step;
        ghost var voltage := if mode == Gen3 then ramp.voltage else None;
        ghost var before := effects;
        ExecuteRampStep(true);
        ghost var target := RampTarget(k, numSteps, amps);
        ghost var tail := if k + 1 > numSteps then FinishEffects(mode) else [Schedule(stepDuration * 1000.0)];
        ghost var head := [SetCurrent(target, voltage), Changed(target)];
        assert effects == before + head + tail;
        assert ramp.step == k + 1 && currentSetpoint == target;
        RampTick(old(effects), all, k, numSteps, amps, voltage, mode, stepDuration * 1000.0);
        Extend(old(effects), added, head, tail);
        Assoc(prior, added, head + tail);
        all := all + (head + tail);
        added := added + (head + tail);
      }
      RampEndsAtTarget(numSteps, amps);
    }

    // ------------------------------------------------------------ profile

    method FinishProfile()
      modifies this`effects, this`isProfiling, this`profile, this`progressRunning, this`buttons
      ensures Valid() && !isProfiling && profile == NoProfile && !progressRunning
      ensures effects == old(effects) + FinishEffects(mode)
    {
      effects := effects + FinishEffects(mode);
      isProfiling := false;
      profile := NoProfile;
      progressRunning := false;
      UpdateButtonStates();
    }

    method CancelProfile()
      modifies this`effects, this`isProfiling, this`profile, this`progressRunning, this`buttons, this`timerSet,
        this`currentSetpoint
      ensures Valid() && !isProfiling && profile == NoProfile && !timerSet && currentSetpoint == 0.0
      ensures effects == old(effects) + CancelEffects(mode)
    {
      timerSet := false;
      currentSetpoint := 0.0;
      effects := effects + [Stop, Changed(0.0)];
      FinishProfile();
      Assoc(old(effects), [Stop, Changed(0.0)], FinishEffects(mode));
    }

    /** One profile point, run when the timer fires; `ok` says whether set_current returned. */
    method ExecuteProfileStep(ok: bool)
      requires Valid()
      modifies this`effects, this`isProfiling, this`profile, this`progressRunning, this`buttons, this`timerSet,
        this`currentSetpoint, this`currentText
      ensures Valid()
      ensures !old(isProfiling) ==> unchanged(this)
      ensures old(isProfiling) && !ok ==>
        (effects == old(effects) + [Error("Profile Error")] + CancelEffects(mode) &&
         !isProfiling && profile == NoProfile && currentSetpoint == 0.0 && !timerSet)
      ensures old(isProfiling) && ok ==>
        (var data := old(profile.data).value;
         var i := old(profile.index);
         var last := i + 1 >= |data|;
         currentSetpoint == data[i].current &&
         effects == old(effects) + [SetCurrent(data[i].current, if mode == Gen3 then old(profile.voltage) else None),
           Changed(data[i].current)] + (if last then FinishEffects(mode) else [Schedule(Gap(data, i))]) &&
         (last ==> !isProfiling && profile == NoProfile && currentText == Fixed(data[i].current, 1)) &&
         (!last ==> isProfiling && profile == old(profile).(index := i + 1) && timerSet))
    {
      if !isProfiling || profile.data.None? {
        return;
      }
      var data := profile.data.value;
      var point := data[profile.index];
      if !ok {
        effects := effects + [Error("Profile Error")];
        CancelProfile();
        return;
      }
      currentSetpoint := point.current;
      effects := effects + [SetCurrent(point.current, if mode == Gen3 then profile.voltage else None),
        Changed(point.current)];
      profile := profile.(index := profile.index + 1);
      if profile.index >= |data| {
        currentText := Fixed(point.current, 1);
        FinishProfile();
        return;
      }
      var delay := Trunc((data[profile.index].time - point.time) * 1000.0);
      timerSet := true;
      effects := effects + [Schedule(delay as real)];
    }

    /** The profile's set-up, then its first point at once. */
    method LaunchProfile(points: seq<Point>, firstOk: bool) returns (ghost rest: seq<Effect>)
      requires Valid() && !isProfiling && points != [] && profile.data == Some(points)
      modifies this`effects, this`isProfiling, this`profile, this`progressRunning, this`buttons, this`timerSet,
        this`currentSetpoint, this`currentText
      ensures Valid() && effects == old(effects) + rest
      ensures firstOk ==>
        (var tail := if |points| == 1 then FinishEffects(mode) else [Schedule(Gap(points, 0))];
         currentSetpoint == points[0].current &&
         rest == [SetCurrent(points[0].current, if mode == Gen3 then old(profile.voltage) else None),
           Changed(points[0].current)] + tail &&
         (|points| == 1 ==> !isProfiling && profile == NoProfile && currentText == Fixed(points[0].current, 1)) &&
         (|points| > 1 ==> isProfiling && profile.data == Some(points) && profile.index == 1))
    {
      profile := profile.(index := 0);
      isProfiling := true;
      UpdateButtonStates();
      progressRunning := true;
      ghost var before := effects;
      ExecuteProfileStep(firstOk);
      rest := effects[|before|..];
      assert effects == before + rest;
    }

    /**
     * The end of _start_profile: mk1's preparation calls, the start time, then (when
     * profile_data[-1] exists) the set-up and the first point at once.
     */
    method BeginProfile(prepared: seq<Effect>, points: seq<Point>, now: real, firstOk: bool)
      returns (ghost added: seq<Effect>)
      requires Valid() && !isProfiling && profile.data == Some(points)
      requires SetCurrents(prepared) == [] && Delays(prepared) == []
      modifies this`effects, this`isProfiling, this`profile, this`progressRunning, this`buttons, this`timerSet,
        this`currentSetpoint, this`currentText, this`operationStart
      ensures Valid() && operationStart == Some(now) && effects == old(effects) + added
      ensures points == [] ==> profile == old(profile) && !isProfiling && currentSetpoint == old(currentSetpoint)
      ensures points != [] && firstOk ==>
        currentSetpoint == points[0].current && SetCurrents(added) == Currents(points, 1) &&
        (|points| == 1 ==>
          !isProfiling && profile == NoProfile && currentText == Fixed(points[0].current, 1) &&
          Delays(added) == Gaps(points, 0)) &&
        (|points| > 1 ==>
          isProfiling && profile.data == Some(points) && profile.index == 1 && Delays(added) == Gaps(points, 1))
    {
      effects := effects + prepared;
      operationStart := Some(now);
      if points == [] {
        return prepared;
      }
      ghost var voltage := if mode == Gen3 then profile.voltage else None;
      ghost var rest := LaunchProfile(points, firstOk);
      added := prepared + rest;
      Assoc(old(effects), prepared, rest);
      if firstOk {
        var tail := if |points| == 1 then FinishEffects(mode) else [Schedule(Gap(points, 0))];
        if |points| > 1 {
          ScheduleFilters(Gap(points, 0));
          GapsSnoc(points, 0);
        }
        AppendStep(prepared, points[0].current, voltage, tail);
        CurrentsSnoc(points, 0);
      }
    }

    /** The checks of _start_profile that all pass before the profile runs. */
    predicate ProfileWillStart(loaded: Result<seq<Point>, string>, mk1Prep: Prep)
      reads this
    {
      (mode == Gen3 || contactorClosed) && loaded.Ok? &&
      (mode == Gen3 ==> voltageText != [] && ParseReal(voltageText).Some?) &&
      (mode == Mk1 ==> Prepared(mk1Prep)) && loaded.value != []
    }

    /**
     * The PROFILE button. load_profile's answer is `loaded` (Err holds the dialog title);
     * an empty profile makes profile_data[-1] raise, which ends the handler with the
     * profile stored but not running. The PROFILE button is disabled while a profile
     * runs, so none is running here.
     */
    method StartProfile(loaded: Result<seq<Point>, string>, mk1Prep: Prep, now: real, firstOk: bool)
      returns (ghost added: seq<Effect>)
      requires Valid() && !isProfiling
      modifies this`effects, this`isProfiling, this`profile, this`progressRunning, this`buttons, this`timerSet,
        this`currentSetpoint, this`currentText, this`operationStart
      ensures Valid() && effects == old(effects) + added
      ensures old(mode != Gen3 && !contactorClosed) ==> added == [Warning("Contactor Open")] && StateUnchanged()
      ensures !old(ProfileWillStart(loaded, mk1Prep)) ==> !isProfiling && currentSetpoint == old(currentSetpoint)
      ensures old(mode == Gen3 || contactorClosed) && loaded.Err? ==> added == [Error(loaded.error)] && StateUnchanged()
      ensures old(mode == Gen3 && voltageText == []) && loaded.Ok? ==>
        added == [Error("Missing Input")] && profile.data == Some(loaded.value) && operationStart == old(operationStart)
      ensures old(mode == Gen3 && voltageText != [] && ParseReal(voltageText).None?) && loaded.Ok? ==>
        added == [Error("Invalid Input")] && profile.data == Some(loaded.value) && operationStart == old(operationStart)
      ensures old(mode == Mk1 && contactorClosed) && loaded.Ok? && !Prepared(mk1Prep) ==>
        added == PrepEffects(mk1Prep) + [Error("Profile Setup Error")] && profile.data == Some(loaded.value) &&
        operationStart == old(operationStart)
      ensures (old(mode == Gen3 || contactorClosed) && loaded == Ok([]) &&
               (mode == Gen3 ==> old(voltageText) != [] && ParseReal(old(voltageText)).Some?) &&
               (mode == Mk1 ==> Prepared(mk1Prep))) ==>
        profile.data == Some([]) && !isProfiling && operationStart == Some(now)
      ensures old(ProfileWillStart(loaded, mk1Prep)) ==>
        (var points := loaded.value;
         operationStart == Some(now) &&
         (firstOk ==>
           currentSetpoint == points[0].current && SetCurrents(added) == Currents(points, 1) &&
           (|points| == 1 ==>
             !isProfiling && profile == NoProfile && currentText == Fixed(points[0].current, 1) &&
             Delays(added) == Gaps(points, 0)) &&
           (|points| > 1 ==>
             isProfiling && profile.data == Some(points) && profile.index == 1 && Delays(added) == Gaps(points, 1))))
    {
      if mode != Gen3 && !contactorClosed {
        effects := effects + [Warning("Contactor Open")];
        return [Warning("Contactor Open")];
      }
      if loaded.Err? {
        effects := effects + [Error(loaded.error)];
        return [Error(loaded.error)];
      }
      var points := loaded.value;
      profile := profile.(data := Some(points));
      if mode == Gen3 {
        if voltageText == [] {
          effects := effects + [Error("Missing Input")];
          return [Error("Missing Input")];
        }
        var volts := ParseReal(voltageText);
        if volts.None? {
          effects := effects + [Error("Invalid Input")];
          return [Error("Invalid Input")];
        }
        profile := profile.(voltage := volts);
      } else {
        profile := profile.(voltage := None);
      }
      var prepared: seq<Effect> := [];
      if mode == Mk1 {
        prepared := PrepEffects(mk1Prep);
        if !Prepared(mk1Prep) {
          effects := effects + (prepared + [Error("Profile Setup Error")]);
          return prepared + [Error("Profile Setup Error")];
        }
      }
      added := BeginProfile(prepared, points, now, firstOk);
    }

    /**
     * A profile that starts, followed by the timer firing until it ends, with every
     * set_current returning: each point's current is applied once, in list order, and
     * the timer waits the time difference to the next point in between.
     */
    method RunProfile(loaded: Result<seq<Point>, string>, mk1Prep: Prep, now: real)
      returns (ghost added: seq<Effect>)
      requires Valid() && !isProfiling && ProfileWillStart(loaded, mk1Prep)
      modifies this`effects, this`isProfiling, this`profile, this`progressRunning, this`buttons, this`timerSet,
        this`currentSetpoint, this`currentText, this`operationStart
      ensures Valid() && !isProfiling && profile == NoProfile && effects == old(effects) + added
      ensures SetCurrents(added) == Currents(loaded.value, |loaded.value|)
      ensures Delays(added) == Gaps(loaded.value, |loaded.value| - 1)
      ensures currentSetpoint == loaded.value[|loaded.value| - 1].current
    {
      var points := loaded.value;
      added := StartProfile(loaded, mk1Prep, now, true);
      while isProfiling
        invariant Valid() && effects == old(effects) + added
        invariant isProfiling ==> profile.data == Some(points) && 1 <= profile.index < |points|
        invariant !isProfiling ==> profile == NoProfile
        invariant var done := if isProfiling then profile.index else |points|;
          SetCurrents(added) == Currents(points, done) &&
          Delays(added) == Gaps(points, if isProfiling then done else done - 1) &&
          currentSetpoint == points[done - 1].current
        decreases isProfiling, |points| - profile.index
      {
        ghost var i := profile.index;
        ghost var voltage := if mode == Gen3 then profile.voltage else None;
        ghost var before := effects;
        ExecuteProfileStep(true);
        ghost var tail := if i + 1 >= |points| then FinishEffects(mode) else [Schedule(Gap(points, i))];
        ghost var head := [SetCurrent(points[i].current, voltage), Changed(points[i].current)];
        assert effects == before + head + tail && currentSetpoint == points[i].current;
        ProfileTick(old(effects), added, points, i, voltage, mode);
        added := added + (head + tail);
      }
    }

    // ------------------------------------------------------------ stop and progress

    /**
     * The STOP button: a running profile, else a running ramp, is cancelled; otherwise
     * gen3 calls safe_shutdown (which never raises) and the other modes call stop,
     * whose failure `stopOk` == false shows an error and changes nothing else.
     */
    method StopAll(stopOk: bool)
      requires Valid()
      modifies this`effects, this`isRamping, this`ramp, this`isProfiling, this`profile, this`progressRunning,
        this`buttons, this`timerSet, this`currentSetpoint, this`currentText, this`voltageText
      ensures Valid()
      ensures old(isProfiling) ==>
        effects == old(effects) + CancelEffects(mode) && !isProfiling && profile == NoProfile &&
        isRamping == old(isRamping) && currentSetpoint == 0.0
      ensures !old(isProfiling) && old(isRamping) ==>
        effects == old(effects) + CancelEffects(mode) && !isRamping && !isProfiling && currentSetpoint == 0.0
      ensures !old(isProfiling) && !old(isRamping) && (mode == Gen3 || stopOk) ==>
        effects == old(effects) + [if mode == Gen3 then SafeShutdown else Stop, Changed(0.0)] &&
        currentSetpoint == 0.0 && currentText == [] && (mode != Gen2 ==> voltageText == []) &&
        !isRamping && !isProfiling
      ensures !old(isProfiling) && !old(isRamping) && mode != Gen3 && !stopOk ==>
        effects == old(effects) + [Error("Error")] && StateUnchanged()
    {
      if isProfiling {
        CancelProfile();
        return;
      }
      if isRamping {
        CancelRamp();
        return;
      }
      if mode != Gen3 && !stopOk {
        effects := effects + [Error("Error")];
        return;
      }
      currentSetpoint := 0.0;
      effects := effects + [if mode == Gen3 then SafeShutdown else Stop, Changed(0.0)];
      currentText := "";
      if mode != Gen2 {
        voltageText := "";
      }
      isRamping := false;
      UpdateButtonStates();
    }

    /** The time still to run, as _update_progress_display computes it. */
    function Remaining(): real
      reads this
    {
      if isRamping then (ramp.maxSteps - ramp.step + 1) as real * ramp.stepDuration
      else if isProfiling && profile.data.Some? && profile.data.value != [] then
        var data := profile.data.value;
        if 0 <= profile.index < |data| then data[|data| - 1].time - data[profile.index].time else 0.0
      else 0.0
    }

    /**
     * The progress bar and the remaining time shown once a second; None when no
     * operation runs or it has no start time.
     */
    method ProgressDisplay(now: real) returns (shown: Option<Progress>)
      ensures (!isRamping && !isProfiling) || operationStart.None? ==> shown.None?
      ensures shown.Some? ==> shown.value.percent <= 100 && shown.value.clock == Hms(Remaining())
      ensures shown.Some? && isRamping && operationStart.value <= now ==> 0 <= shown.value.percent
    {
      if !(isRamping || isProfiling) || operationStart.None? {
        return None;
      }
      var elapsed := now - operationStart.value;
      var percent: int;
      if isRamping {
        percent := Percent(elapsed, ramp.maxSteps as real * ramp.stepDuration);
      } else if isProfiling && profile.data.Some? && profile.data.value != [] {
        var data := profile.data.value;
        if 0 <= profile.index < |data| {
          percent := Percent(data[profile.index].time, data[|data| - 1].time);
        } else {
          percent := 100;
        }
      } else {
        percent := 0;
      }
      shown := Some(Progress(percent, Hms(Remaining())));
    }
  }
}
