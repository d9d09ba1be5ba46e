/**
 * The oscilloscope's input handlers (CM7/Core/Src/main.c): the three knobs polled by
 * the main loop, the GPIO interrupt callback for the user button, the touch screen and
 * the joystick, and the ADC completion callback that feeds the chart.
 *
 * The function-local statics of those handlers, and the main loop's knob counter, are
 * the fields of the class InputState. Calls into chart functions that have no
 * definition in chart_handler.c (setting the trigger, toggling acquisition, setting the
 * time offset), and the display's touch-status update, which is not part of this model,
 * are recorded in an effect log; the knob mode and the current time offset they would
 * read are inputs.
 */
module Controls {
  import Chart
  import TouchScreen

  type U16 = x: int | 0 <= x < 0x1_0000
  type U32 = Chart.U32

  /** Number of knobs the main loop polls in turn (CHART_KNOB_COUNT); its value is not
      part of this model. */
  const CHART_KNOB_COUNT: Chart.Positive

  /** Minimum time between two accepted user-button presses (BUTTON_DEBOUNCE_TIME); its
      value is not part of this model. */
  const BUTTON_DEBOUNCE_TIME: U32

  /** ADC3, which reads the knobs, converts with 12-bit resolution. */
  const ADC_RANGE: nat := 4096

  /** GPIO pin masks of the interrupt lines (GPIO_PIN_n is bit n). */
  const JOY_SELECT_PIN: U16 := 0x0004
  const JOY_DOWN_PIN: U16 := 0x0008
  const JOY_LEFT_PIN: U16 := 0x0010
  const JOY_RIGHT_PIN: U16 := 0x0020
  const JOY_UP_PIN: U16 := 0x0040
  const TOUCH_INTERRUPT_PIN: U16 := 0x0080
  const USER_BUTTON_PIN: U16 := 0x2000

  /** What the chart's knob mode selects. */
  datatype KnobMode = Voltage | Time | Other

  /** A call whose target is not part of this model, in the order it was made. */
  datatype Effect =
    | SetTrigger(ch: Chart.Channel, level: U16)
    | SetXOffset(ch: Chart.Channel, offset: real)
    | ToggleRunning(ch: Chart.Channel)
    | TouchStatus(detected: U32, x: U32, y: U32)

  /** Vertical scales the scale knob selects from in voltage mode. */
  const SCALES: seq<real> := [50.0, 100.0, 125.0, 250.0, 500.0, 1000.0, 2000.0, 5000.0]

  /** Time scales the scale knob selects from in time mode. */
  const X_SCALES: seq<real> :=
    [10.0, 50.0, 100.0, 500.0, 1000.0, 2000.0, 5000.0, 10000.0, 50000.0, 100000.0]

  /** Every vertical scale on the knob is accepted by the chart. */
  lemma ScalesAccepted()
    ensures forall i :: 0 <= i < |SCALES| ==> Chart.ScaleInRange(SCALES[i])
  {}

  /** The four smallest time scales on the knob are below the chart's minimum and are
      refused; the others are accepted. */
  lemma XScalesAccepted()
    ensures forall i :: 0 <= i < |X_SCALES| ==> (Chart.XScaleInRange(X_SCALES[i]) <==> i >= 4)
  {}

  /** Change detection of the knobs: a reading counts as new only when it falls in
      another band of 50 counts than the last one. */
  function Band(value: U16): (b: nat)
    ensures b * 50 <= value < b * 50 + 50
  {
    value / 50
  }

  /** Trigger level for a knob reading: four times the reading, truncated to 16 bits.
      It is exactly four times the reading whenever that fits, which every 12-bit
      reading does. */
  function TriggerLevel(value: U16): (level: U16)
    ensures value < 0x4000 <==> level == 4 * value
    ensures value < ADC_RANGE ==> level <= 4 * (ADC_RANGE - 1)
  {
    (value * 4) % 0x1_0000
  }

  /** Entry of SCALES a reading selects in voltage mode: eight bands of 512 counts. */
  function VoltageIndex(value: U16): (i: nat)
    ensures i < |SCALES| <==> value < ADC_RANGE
  {
    value / 512
  }

  /** Entry of X_SCALES a reading selects in time mode: bands of 372.36 counts, so only
      readings up to 3723 select an entry of the ten-entry table. */
  function TimeIndex(value: U16): (i: int)
    ensures i >= 0
    ensures i < |X_SCALES| <==> value <= 3723
  {
    var q := value as real / 372.36;
    assert value <= 3723 ==> q < 10.0;
    assert value >= 3724 ==> q >= 10.0;
    q.Floor
  }

  /** A 12-bit reading beyond 3723 selects entry 10, one past the end of X_SCALES. */
  lemma TimeIndexOverrun()
    ensures TimeIndex(ADC_RANGE - 1) == |X_SCALES|
  {
    var q := (ADC_RANGE - 1) as real / 372.36;
    assert 10.0 <= q < 11.0;
  }

  /** Time-mode band as evidently intended: the 12-bit range divided evenly over the ten
      entries of X_SCALES (4096 / 10 counts per band), as voltage mode divides it over
      the eight entries of SCALES. Every reading selects an entry, and turning the knob
      up never selects a smaller entry. */
  function CorrectedTimeIndex(value: U16): (i: nat)
    requires value < ADC_RANGE
    ensures i < |X_SCALES|
  {
    var q := value as real / 409.6;
    assert q < 10.0;
    q.Floor
  }

  lemma {:induction false} CorrectedTimeIndexMonotonic(v1: U16, v2: U16)
    requires v1 <= v2 < ADC_RANGE
    ensures CorrectedTimeIndex(v1) <= CorrectedTimeIndex(v2)
  {
    assert v1 as real / 409.6 <= v2 as real / 409.6;
  }

  /** The elapsed time handed to the chart by the ADC callback: the timer count, or 1
      when the timer read 0. */
  function ElapsedTime(count: U32): (dt: U32)
    ensures dt >= 1
    ensures count >= 1 ==> dt == count
  {
    if count == 0 then 1 else count
  }

  /** Because the elapsed time is never zero, the chart's time per sample is positive. */
  lemma ElapsedTimePositive(count: U32)
    ensures Chart.TimePerSample(ElapsedTime(count)) > 0.0
  {}

  /** The channel-1 scales after a joystick press multiplies the current scale by
      factor: the product when the chart's bounds accept it, else the scales as they
      were. The other channel is never touched. */
  function Zoom(scales: seq<real>, factor: real, accepts: real -> bool): (r: seq<real>)
    requires |scales| == Chart.CHANNEL_COUNT
    ensures |r| == Chart.CHANNEL_COUNT && r[Chart.CH2] == scales[Chart.CH2]
    ensures r[Chart.CH1] == scales[Chart.CH1] || accepts(r[Chart.CH1])
  {
    if accepts(scales[Chart.CH1] * factor) then scales[Chart.CH1 := scales[Chart.CH1] * factor]
    else scales
  }

  /** Halving undoes doubling whenever the doubled scale was accepted. */
  lemma ZoomRoundTrip(scales: seq<real>, accepts: real -> bool)
    requires |scales| == Chart.CHANNEL_COUNT
    requires accepts(scales[Chart.CH1]) && accepts(scales[Chart.CH1] * 2.0)
    ensures Zoom(Zoom(scales, 2.0, accepts), 0.5, accepts) == scales
  {
    var up := Zoom(scales, 2.0, accepts);
    assert up[Chart.CH1] * 0.5 == scales[Chart.CH1];
  }

  /** Once the channel-1 scale is accepted, no sequence of presses moves it out of the
      accepted range. */
  lemma {:induction false} ZoomKeepsRange(scales: seq<real>, factors: seq<real>, accepts: real -> bool)
    requires |scales| == Chart.CHANNEL_COUNT && accepts(scales[Chart.CH1])
    ensures accepts(ZoomAll(scales, factors, accepts)[Chart.CH1])
    decreases |factors|
  {
    if factors != [] {
      var next := Zoom(scales, factors[0], accepts);
      ZoomKeepsRange(next, factors[1..], accepts);
    }
  }

  /** The scales after a sequence of joystick presses, each multiplying by its factor.
      No press ever reaches channel 2. */
  function ZoomAll(scales: seq<real>, factors: seq<real>, accepts: real -> bool): (r: seq<real>)
    requires |scales| == Chart.CHANNEL_COUNT
    ensures |r| == Chart.CHANNEL_COUNT && r[Chart.CH2] == scales[Chart.CH2]
    decreases |factors|
  {
    if factors == [] then scales
    else ZoomAll(Zoom(scales, factors[0], accepts), factors[1..], accepts)
  }

  /** The knob counter of the main loop after one poll. */
  function NextKnob(knob: nat): (k: nat)
    requires knob < CHART_KNOB_COUNT
    ensures k < CHART_KNOB_COUNT && k == (knob + 1) % CHART_KNOB_COUNT
  {
    if knob + 1 >= CHART_KNOB_COUNT then 0 else knob + 1
  }

  /** After q full rounds and r more polls from knob 0, the counter is r: the knobs
      are read in turn, each once per round. */
  lemma {:induction false} KnobCycle(q: nat, r: nat)
    requires r < CHART_KNOB_COUNT
    ensures Polls(q * CHART_KNOB_COUNT + r) == r
    decreases q * CHART_KNOB_COUNT + r
  {
    if r > 0 {
      KnobCycle(q, r - 1);
    } else if q > 0 {
      assert q * CHART_KNOB_COUNT == (q - 1) * CHART_KNOB_COUNT + (CHART_KNOB_COUNT - 1) + 1;
      KnobCycle(q - 1, CHART_KNOB_COUNT - 1);
    }
  }

  /** The knob counter after n polls from 0. */
  function Polls(n: nat): (k: nat)
    ensures k < CHART_KNOB_COUNT
  {
    if n == 0 then 0 else NextKnob(Polls(n - 1))
  }

  /** The joystick's zoom factor: doubling towards up/right, halving towards
      down/left. */
  function Factor(up: bool): real { if up then 2.0 else 0.5 }

  /** What a vertical zoom did to the chart: channel 1's scale multiplied by the factor
      when the setter accepts it, and then the channel's window emptied; a refused scale
      leaves scales, window and ready flags as they were. The time scales and offsets
      never change. */
  twostate predicate ScaleZoomed(h: Chart.ChartHandler, up: bool)
    requires old(h.Valid()) && h.Valid()
    reads h, h.raw, h.data
  {
    && h.scale == Zoom(old(h.scale), Factor(up), Chart.ScaleInRange)
    && h.xScale == old(h.xScale) && h.offset == old(h.offset)
    && if Chart.ScaleInRange(old(h.scale[Chart.CH1]) * Factor(up)) then h.Cleared(Chart.CH1)
       else h.ready == old(h.ready) && unchanged(h.raw) && unchanged(h.data)
  }

  /** The same for a horizontal zoom of channel 1's time scale. */
  twostate predicate XScaleZoomed(h: Chart.ChartHandler, up: bool)
    requires old(h.Valid()) && h.Valid()
    reads h, h.raw, h.data
  {
    && h.xScale == Zoom(old(h.xScale), Factor(up), Chart.XScaleInRange)
    && h.scale == old(h.scale) && h.offset == old(h.offset)
    && if Chart.XScaleInRange(old(h.xScale[Chart.CH1]) * Factor(up)) then h.Cleared(Chart.CH1)
       else h.ready == old(h.ready) && unchanged(h.raw) && unchanged(h.data)
  }

  /** A joystick press on the vertical axis: channel 1's scale doubled or halved, handed
      to the chart's setter. */
  method ZoomScale(h: Chart.ChartHandler, up: bool)
    requires h.Valid()
    modifies h`scale, h`ready, h.raw, h.data
    ensures h.Valid() && (old(h.Configured()) ==> h.Configured())
    ensures ScaleZoomed(h, up)
  {
    var scale := h.GetScale(Chart.CH1);
    if up {
      assert Factor(up) == 2.0;
      h.SetScale(Chart.CH1, scale * 2.0);
    } else {
      assert Factor(up) == 0.5;
      h.SetScale(Chart.CH1, scale * 0.5);
    }
  }

  /** A joystick press on the horizontal axis: channel 1's time scale doubled or halved,
      handed to the chart's setter. */
  method ZoomXScale(h: Chart.ChartHandler, up: bool)
    requires h.Valid()
    modifies h`xScale, h`ready, h.raw, h.data
    ensures h.Valid() && (old(h.Configured()) ==> h.Configured())
    ensures XScaleZoomed(h, up)
  {
    var scale := h.GetXScale(Chart.CH1);
    if up {
      assert Factor(up) == 2.0;
      h.SetXScale(Chart.CH1, scale * 2.0);
    } else {
      assert Factor(up) == 0.5;
      h.SetXScale(Chart.CH1, scale * 0.5);
    }
  }

  /** The joystick branches of the GPIO callback: left halves and right doubles channel
      1's time scale, up doubles and down halves its scale. */
  method Joystick(pin: U16, h: Chart.ChartHandler)
    requires h.Valid() && pin in {JOY_LEFT_PIN, JOY_UP_PIN, JOY_DOWN_PIN, JOY_RIGHT_PIN}
    modifies h`scale, h`xScale, h`ready, h.raw, h.data
    ensures h.Valid() && (old(h.Configured()) ==> h.Configured())
    ensures pin in {JOY_LEFT_PIN, JOY_RIGHT_PIN} ==> XScaleZoomed(h, pin == JOY_RIGHT_PIN)
    ensures pin in {JOY_UP_PIN, JOY_DOWN_PIN} ==> ScaleZoomed(h, pin == JOY_UP_PIN)
  {
    if pin == JOY_LEFT_PIN {
      ZoomXScale(h, false);
    } else if pin == JOY_UP_PIN {
      ZoomScale(h, true);
    } else if pin == JOY_DOWN_PIN {
      ZoomScale(h, false);
    } else {
      ZoomXScale(h, true);
    }
  }

  /** The persistent state of the input handlers. */
  class InputState {
    /** update_knob_trigger's last reading. */
    var triggerPrev: U16
    /** update_knob_offset's last reading. */
    var offsetPrev: U16
    /** update_knob_scale's last entries of SCALES and X_SCALES. */
    var scaleIndex: nat
    var xScaleIndex: nat
    /** The interrupt callback's re-entry lock and last accepted button press. */
    var lock: bool
    var lastPress: U32
    /** The main loop's knob counter (knob_i). */
    var knob: nat
    /** Calls made so far into chart functions outside this model. */
    var effects: seq<Effect>

    ghost predicate Valid()
      reads this
    {
      scaleIndex < |SCALES| && xScaleIndex < |X_SCALES| && knob < CHART_KNOB_COUNT
    }

    /** The statics' initial values. */
    constructor ()
      ensures Valid()
      ensures triggerPrev == 0 && offsetPrev == 0 && scaleIndex == 6 && xScaleIndex == 6
      ensures !lock && lastPress == 0 && knob == 0 && effects == []
    {
      triggerPrev, offsetPrev, scaleIndex, xScaleIndex := 0, 0, 6, 6;
      lock, lastPress, knob, effects := false, 0, 0, [];
    }

    /** The chart's scales, offsets and window are as they were. */
    twostate predicate ChartKept(h: Chart.ChartHandler)
      reads h, h.raw, h.data
    {
      h.scale == old(h.scale) && h.xScale == old(h.xScale) && h.offset == old(h.offset)
      && h.ready == old(h.ready) && unchanged(h.raw) && unchanged(h.data)
    }

    /** Outcome of update_knob_trigger: a reading in a new band becomes the last reading
        and sets channel 1's trigger level; any other reading changes nothing. */
    twostate predicate TriggerKnobDone(value: U16)
      reads this
    {
      if Band(value) == Band(old(triggerPrev))
      then triggerPrev == old(triggerPrev) && effects == old(effects)
      else triggerPrev == value && effects == old(effects) + [SetTrigger(Chart.CH1, TriggerLevel(value))]
    }

    /** Outcome of update_knob_scale: in voltage or time mode, a reading that selects
        another entry than last time makes it the last entry and hands it to channel 1's
        scale or time-scale setter, which may refuse it; anything else changes nothing. */
    twostate predicate ScaleKnobDone(value: U16, mode: KnobMode, h: Chart.ChartHandler)
      requires old(h.Valid()) && h.Valid()
      reads this, h, h.raw, h.data
    {
      var vi := VoltageIndex(value);
      var ti := TimeIndex(value);
      if mode == Voltage && vi != old(scaleIndex) && vi < |SCALES| then
        && scaleIndex == vi && xScaleIndex == old(xScaleIndex)
        && h.scale == old(h.scale)[Chart.CH1 := SCALES[vi]] && h.xScale == old(h.xScale)
        && h.offset == old(h.offset) && h.Cleared(Chart.CH1)
      else if mode == Time && ti != old(xScaleIndex) && ti < |X_SCALES| then
        && xScaleIndex == ti && scaleIndex == old(scaleIndex)
        && h.scale == old(h.scale) && h.offset == old(h.offset)
        && if Chart.XScaleInRange(X_SCALES[ti])
           then h.xScale == old(h.xScale)[Chart.CH1 := X_SCALES[ti]] && h.Cleared(Chart.CH1)
           else ChartKept(h)
      else
        scaleIndex == old(scaleIndex) && xScaleIndex == old(xScaleIndex) && ChartKept(h)
    }

    /** Outcome of update_knob_offset: a reading in a new band becomes the last reading
        whatever the mode; its voltage then becomes channel 1's offset in voltage mode
        or its time offset in time mode. */
    twostate predicate OffsetKnobDone(value: U16, mode: KnobMode, h: Chart.ChartHandler)
      requires old(h.Valid()) && h.Valid()
      reads this, h, h.raw, h.data
    {
      if Band(value) == Band(old(offsetPrev)) then
        offsetPrev == old(offsetPrev) && effects == old(effects) && ChartKept(h)
      else
        && offsetPrev == value
        && match mode
           case Voltage =>
             && effects == old(effects) && h.scale == old(h.scale) && h.xScale == old(h.xScale)
             && h.offset == old(h.offset)[Chart.CH1 := Chart.ADC_TO_VOLTS(value)]
             && h.Cleared(Chart.CH1)
           case Time =>
             effects == old(effects) + [SetXOffset(Chart.CH1, Chart.ADC_TO_VOLTS(value))] && ChartKept(h)
           case Other =>
             effects == old(effects) && ChartKept(h)
    }

    method UpdateKnobTrigger(value: U16)
      modifies this`triggerPrev, this`effects
      ensures TriggerKnobDone(value)
    {
      if Band(value) == Band(triggerPrev) {
        return;
      }
      triggerPrev := value;
      var level := (value * 4) % 0x1_0000;
      effects := effects + [SetTrigger(Chart.CH1, level)];
    }

    /** update_knob_scale. An entry past the end of a table is never read: in voltage
        mode every 12-bit reading is safe, in time mode only readings up to 3723. */
    method UpdateKnobScale(value: U16, mode: KnobMode, h: Chart.ChartHandler)
      requires Valid() && h.Valid()
      requires mode == Voltage ==> value < ADC_RANGE
      requires mode == Time ==> value <= 3723
      modifies this`scaleIndex, this`xScaleIndex, h`scale, h`xScale, h`ready, h.raw, h.data
      ensures Valid() && h.Valid() && (old(h.Configured()) ==> h.Configured())
      ensures ScaleKnobDone(value, mode, h)
    {
      match mode {
        case Voltage =>
          var index := value / 512;
          if index == scaleIndex {
            return;
          }
          scaleIndex := index;
          ScalesAccepted();
          h.SetScale(Chart.CH1, SCALES[index]);
        case Time =>
          var index := TimeIndex(value);
          if index == xScaleIndex {
            return;
          }
          xScaleIndex := index;
          h.SetXScale(Chart.CH1, X_SCALES[index]);
        case Other =>
      }
    }

    method UpdateKnobOffset(value: U16, mode: KnobMode, h: Chart.ChartHandler)
      requires h.Valid()
      modifies this`offsetPrev, this`effects, h`offset, h`ready, h.raw, h.data
      ensures h.Valid() && (old(h.Configured()) ==> h.Configured())
      ensures OffsetKnobDone(value, mode, h)
    {
      if Band(value) == Band(offsetPrev) {
        return;
      }
      offsetPrev := value;
      match mode {
        case Voltage =>
          h.SetOffset(Chart.CH1, Chart.ADC_TO_VOLTS(value));
        case Time =>
          effects := effects + [SetXOffset(Chart.CH1, Chart.ADC_TO_VOLTS(value))];
        case Other =>
      }
    }

    /**
     * One knob poll of the main loop: the reading of the current knob goes to the scale,
     * offset or trigger handler (knobs 0, 1 and 2; any other knob is ignored), then the
     * counter moves on to the next knob, wrapping to 0. Every reading is 12-bit; the
     * scale knob in time mode must also stay at or below 3723.
     */
    method PollKnob(value: U16, mode: KnobMode, h: Chart.ChartHandler)
      requires Valid() && h.Valid() && value < ADC_RANGE
      requires knob == 0 && mode == Time ==> value <= 3723
      modifies this`knob, this`triggerPrev, this`offsetPrev, this`scaleIndex, this`xScaleIndex, this`effects
      modifies h`scale, h`xScale, h`offset, h`ready, h.raw, h.data
      ensures Valid() && h.Valid() && (old(h.Configured()) ==> h.Configured())
      ensures knob == NextKnob(old(knob))
      ensures old(knob) == 0 ==>
                ScaleKnobDone(value, mode, h) && triggerPrev == old(triggerPrev)
                && offsetPrev == old(offsetPrev) && effects == old(effects)
      ensures old(knob) == 1 ==>
                OffsetKnobDone(value, mode, h) && triggerPrev == old(triggerPrev)
                && scaleIndex == old(scaleIndex) && xScaleIndex == old(xScaleIndex)
      ensures old(knob) == 2 ==>
                TriggerKnobDone(value) && offsetPrev == old(offsetPrev) && ChartKept(h)
                && scaleIndex == old(scaleIndex) && xScaleIndex == old(xScaleIndex)
      ensures old(knob) > 2 ==>
                triggerPrev == old(triggerPrev) && offsetPrev == old(offsetPrev) && effects == old(effects)
                && scaleIndex == old(scaleIndex) && xScaleIndex == old(xScaleIndex) && ChartKept(h)
    {
      if knob == 0 {
        UpdateKnobScale(value, mode, h);
      } else if knob == 1 {
        UpdateKnobOffset(value, mode, h);
      } else if knob == 2 {
        UpdateKnobTrigger(value);
      }
      knob := knob + 1;
      if knob >= CHART_KNOB_COUNT {
        knob := 0;
      }
    }

    /** The user-button branch of the interrupt callback: a press counts only once the
        debounce time has passed since the last counted one (unsigned 32-bit
        difference), and then toggles channel 1's acquisition. */
    method PressButton(now: U32)
      modifies this`lastPress, this`effects
      ensures if TouchScreen.Wrap(now - old(lastPress)) >= BUTTON_DEBOUNCE_TIME
              then lastPress == now && effects == old(effects) + [ToggleRunning(Chart.CH1)]
              else lastPress == old(lastPress) && effects == old(effects)
    {
      if TouchScreen.Wrap(now - lastPress) >= BUTTON_DEBOUNCE_TIME {
        lastPress := now;
        effects := effects + [ToggleRunning(Chart.CH1)];
      }
    }

    /** The touch branch of the interrupt callback: the touch screen is read into a
        fresh TsInfo and, when the read succeeds, its status is shown. */
    method ReportTouch(reading: TouchScreen.Option<TouchScreen.Reading>, ts: TouchScreen.Touch)
      requires ts.state == TouchScreen.Enabled ==> ts.maxX > 0 && ts.maxY > 0
      modifies this`effects, ts`prevX, ts`prevY
      ensures if ts.state == TouchScreen.Enabled && reading.Some?
              then effects == old(effects) + [TouchStatus(reading.value.touchDetected, ts.prevX, ts.prevY)]
                   && ts.Tracked(reading.value)
              else effects == old(effects) && ts.prevX == old(ts.prevX) && ts.prevY == old(ts.prevY)
    {
      var info := new TouchScreen.TsInfo();
      var status := ts.GetInfo(info, reading);
      if status == TouchScreen.Ok {
        effects := effects + [TouchStatus(info.detected, info.x, info.y)];
      }
    }

    /**
     * HAL_GPIO_EXTI_Callback for a press on `pin` at time `now` (ms). While the lock is
     * held a call does nothing; otherwise the pin's action runs and the lock is
     * released again. The user button toggles channel 1's acquisition when the debounce
     * time has passed since the last accepted press (unsigned 32-bit difference); the
     * touch line reads the touch screen and shows its status when the read succeeds;
     * the joystick moves channel 1's time offset by 50, or doubles or halves its scale
     * or time scale within the chart's bounds. `xOffset` is the channel's current time
     * offset and `reading` the touch driver's answer.
     */
    method ExtiCallback(pin: U16, now: U32, xOffset: real, reading: TouchScreen.Option<TouchScreen.Reading>,
                        h: Chart.ChartHandler, ts: TouchScreen.Touch)
      requires h.Valid()
      requires ts.state == TouchScreen.Enabled ==> ts.maxX > 0 && ts.maxY > 0
      modifies this`lock, this`lastPress, this`effects
      modifies h`scale, h`xScale, h`ready, h.raw, h.data, ts`prevX, ts`prevY
      ensures h.Valid() && (old(h.Configured()) ==> h.Configured())
      ensures lock == old(lock)
      ensures old(lock) || (pin != USER_BUTTON_PIN && pin != TOUCH_INTERRUPT_PIN && pin != JOY_SELECT_PIN
                            && pin != JOY_LEFT_PIN && pin != JOY_UP_PIN && pin != JOY_DOWN_PIN
                            && pin != JOY_RIGHT_PIN) ==>
                lastPress == old(lastPress) && effects == old(effects) && ChartKept(h)
                && ts.prevX == old(ts.prevX) && ts.prevY == old(ts.prevY)
      ensures !old(lock) && pin == USER_BUTTON_PIN ==>
                && ChartKept(h) && ts.prevX == old(ts.prevX) && ts.prevY == old(ts.prevY)
                && if TouchScreen.Wrap(now - old(lastPress)) >= BUTTON_DEBOUNCE_TIME
                   then lastPress == now && effects == old(effects) + [ToggleRunning(Chart.CH1)]
                   else lastPress == old(lastPress) && effects == old(effects)
      ensures !old(lock) && pin == TOUCH_INTERRUPT_PIN ==>
                && ChartKept(h) && lastPress == old(lastPress)
                && if ts.state == TouchScreen.Enabled && reading.Some?
                   then effects == old(effects) + [TouchStatus(reading.value.touchDetected, ts.prevX, ts.prevY)]
                        && ts.Tracked(reading.value)
                   else effects == old(effects) && ts.prevX == old(ts.prevX) && ts.prevY == old(ts.prevY)
      ensures !old(lock) && pin == JOY_SELECT_PIN ==>
                ChartKept(h) && lastPress == old(lastPress) && ts.prevX == old(ts.prevX) && ts.prevY == old(ts.prevY)
                && effects == old(effects) + [SetXOffset(Chart.CH1, xOffset + 50.0)]
      ensures !old(lock) && pin in {JOY_LEFT_PIN, JOY_RIGHT_PIN} ==>
                && lastPress == old(lastPress) && effects == old(effects)
                && ts.prevX == old(ts.prevX) && ts.prevY == old(ts.prevY)
                && XScaleZoomed(h, pin == JOY_RIGHT_PIN)
      ensures !old(lock) && pin in {JOY_UP_PIN, JOY_DOWN_PIN} ==>
                && lastPress == old(lastPress) && effects == old(effects)
                && ts.prevX == old(ts.prevX) && ts.prevY == old(ts.prevY)
                && ScaleZoomed(h, pin == JOY_UP_PIN)
    {
      if lock {
        return;
      }
      lock := true;
      if pin == USER_BUTTON_PIN {
        PressButton(now);
      } else if pin == TOUCH_INTERRUPT_PIN {
        ReportTouch(reading, ts);
      } else if pin == JOY_SELECT_PIN {
        effects := effects + [SetXOffset(Chart.CH1, xOffset + 50.0)];
      } else if pin in {JOY_LEFT_PIN, JOY_UP_PIN, JOY_DOWN_PIN, JOY_RIGHT_PIN} {
        Joystick(pin, h);
      }
      lock := false;
    }

    /**
     * HAL_ADC_ConvCpltCallback: a completed conversion of ADC2, the channel converter,
     * hands the chart the elapsed timer count, never less than 1, and the converted
     * samples; a completion of any other converter does nothing.
     */
    method ConversionComplete(fromChannels: bool, count: U32, src: seq<seq<Chart.Sample>>,
                              h: Chart.ChartHandler)
      requires h.Valid() && h.Configured()
      requires |src| == Chart.CHANNEL_COUNT && forall c: Chart.Channel :: |src[c]| == Chart.SAMPLE_COUNT
      modifies h`index, h`ready, h.raw
      ensures h.Valid() && h.Configured()
      ensures fromChannels ==> h.Updated(ElapsedTime(count), src)
      ensures !fromChannels ==> h.index == old(h.index) && h.ready == old(h.ready) && unchanged(h.raw)
    {
      if fromChannels {
        var dt := count;
        if dt == 0 {
          dt := 1;
        }
        h.Update(dt, src);
      }
    }
  }
}
