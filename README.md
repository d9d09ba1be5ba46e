# Oscilloscope firmware: chart handler, touch screen and input handlers

A Dafny model of the core of an STM32H7 oscilloscope firmware (Cortex-M7 side). It covers three parts.

- **Chart handler** (`chart.dfy`, module `Chart`). Per channel it keeps:
  - an enabled flag, a vertical scale, a time scale and an offset;
  - a window of `VALUES_COUNT` raw samples filled by decimating each DMA buffer of `SAMPLE_COUNT` = 101 ADC samples;
  - a ready flag and a window of voltages in grid units published to the display.

  `ChartHandler` is a class with array fields. The decimation is a method with loop invariants. It is proved against a closed form: once per call, the window slot k0 + j receives raw sample (j + 1)·s, where s is `Period`, the least number of sample periods covering one value period. Sample 0 is never copied.
- **Touch screen** (`touch.dfy`, module `TouchScreen`). The shared configuration is the class `Touch` and the out-parameter is `TsInfo`. A reading from the FT6X06 controller goes through three steps, all on wrapping unsigned 32-bit arithmetic:
  - orientation: swap X/Y and mirror each axis;
  - scaling to the screen;
  - a deadband around the last accepted point.
- **Input handlers** (`controls.dfy`, module `Controls`). The function-local statics of `main.c` and the main loop's knob counter are the class `InputState`. It covers:
  - the three knob handlers with their 50-count change bands and lookup tables;
  - the GPIO interrupt callback: re-entry lock, button debounce, touch read, joystick zoom;
  - the ADC completion callback with its elapsed-time clamp.

Floating-point values are modelled as reals. Some constants are not defined in the source files this model covers: `VALUES_COUNT`, `VALUES_PER_DIVISION`, `CHART_KNOB_COUNT`, `BUTTON_DEBOUNCE_TIME` and the ADC transfer function. They are declared without a value, so every proof holds for every value they may have.

Chart functions that `main.c` calls but that have no definition in `chart_handler.c` are recorded in an effect log instead: setting the trigger, toggling acquisition and setting the time offset. The display's touch-status update (`lv_api_update_ts_status`, defined in `lvgl_api.c`, which is not part of this model) is recorded in the same log. The knob mode and the current time offset are inputs. Calls to the display's `lv_api_update_points` are recorded by the `Sink` class.

Where the chart handler's header and `chart_handler.c` differ in field layout (per-channel time scale and enabled flags), the model follows `chart_handler.c`.

## Model

| member | source | states |
|---|---|---|
| Chart.Period | CM7/Core/Src/chart_handler.c:91-108 | The copy period in samples is the ceiling of time-per-value over time-per-sample, at least 1. With a zero elapsed time no sample is ever copied. |
| Chart.PeriodThreshold | CM7/Core/Src/chart_handler.c:101-108 | A delta of p sample periods reaches the time per value exactly when p is the period. |
| Chart.PeriodMonotonic | CM7/Core/Src/chart_handler.c:98-99 | A larger time scale never gives a shorter copy period. |
| Chart.DecimatedCursorInWindow | CM7/Core/Src/chart_handler.c:106-115 | After a pass the write cursor is inside the window, so every write is in bounds. |
| Chart.DecimatedCount | CM7/Core/Src/chart_handler.c:103-116 | A pass that does not fill the window copies exactly (SAMPLE_COUNT - 1) / period samples. |
| Chart.DecimatedSources | CM7/Core/Src/chart_handler.c:101-108 | Every copied slot holds a sample at index at least 1, and consecutive slots are one period apart in the buffer. |
| Chart.GridUnits | CM7/Core/Src/chart_handler.c:130-138 | The grid value times the scale, minus the offset, is the sample's voltage. |
| Chart.ChartHandler.constructor | CM7/Core/Src/chart_handler.c:20 | Zeroed storage: both channels disabled and not ready, with zero cursors, scales, offsets and windows, and no display. |
| Chart.ChartHandler.Init | CM7/Core/Src/chart_handler.c:17-28 | A null display changes nothing. Otherwise: cleared state, channel 1 enabled and channel 2 disabled, time scale 5000 and scale 1000 on both, and scales in range. |
| Chart.ChartHandler.SetEnable | CM7/Core/Src/chart_handler.c:30-34 | Only the channel's enabled flag changes, to the given value. |
| Chart.ChartHandler.ToggleEnable | CM7/Core/Src/chart_handler.c:36-40 | Only the channel's enabled flag changes, to its negation. |
| Chart.ChartHandler.GetOffset | CM7/Core/Src/chart_handler.c:42-46 | Returns the channel's offset. |
| Chart.ChartHandler.SetOffset | CM7/Core/Src/chart_handler.c:48-53 | Any value is stored as the offset and the channel is invalidated. |
| Chart.ChartHandler.GetScale | CM7/Core/Src/chart_handler.c:55-59 | Returns the channel's scale. |
| Chart.ChartHandler.SetScale | CM7/Core/Src/chart_handler.c:61-66 | A value in [10, 10000] is stored and invalidates the channel. Any other value changes neither scale, ready flags, raw nor data. The scale invariant is kept. |
| Chart.ChartHandler.GetXScale | CM7/Core/Src/chart_handler.c:68-72 | Returns the channel's time scale. |
| Chart.ChartHandler.SetXScale | CM7/Core/Src/chart_handler.c:74-79 | A value in [1000, 100000] is stored and invalidates the channel. Any other value changes nothing. The scale invariant is kept. |
| Chart.ChartHandler.Invalidate | CM7/Core/Src/chart_handler.c:146-154 | The channel is no longer ready and its raw and data rows are zero. The cursor, the other channel and everything else stay as they were. |
| Chart.ChartHandler.Push | CM7/Core/Src/chart_handler.c:106 | Writes the value at the channel's cursor and advances that cursor by one. Nothing else in the window changes. |
| Chart.ChartHandler.DecimateSample | CM7/Core/Src/chart_handler.c:103-108 | One step of the pass keeps the pass's invariant. The accumulated time is the phase times the time per sample. The cursor has advanced by at most one, and the slots written so far follow the closed form. The other channel is untouched. |
| Chart.ChartHandler.Decimate | CM7/Core/Src/chart_handler.c:97-116 | One pass over a buffer fills the window per the closed form. When the window fills, the cursor resets to 0 and the channel becomes ready. The other channel is untouched. |
| Chart.ChartHandler.Update | CM7/Core/Src/chart_handler.c:81-118 | Disabled or ready channels keep raw, cursor and ready. Every other channel gets one decimation pass with the period its time scale and the elapsed time give. |
| Chart.ChartHandler.Routine | CM7/Core/Src/chart_handler.c:121-144 | Each enabled, ready channel is converted to grid units, published once in channel order, and no longer ready. Other channels keep their data and flags. |
| TouchScreen.MirrorInvolution | CM7/Core/Src/touch_screen.c:132-139 | Mirroring an in-range coordinate stays in range and is its own inverse. |
| TouchScreen.Mirror | CM7/Core/Src/touch_screen.c:132-139 | The mirrored coordinate is inside the axis exactly when the coordinate is. |
| TouchScreen.MirrorUnderflow | CM7/Core/Src/touch_screen.c:132-139 | Mirroring a coordinate at or past the axis end wraps around to 2^32 + m - v - 1, which is never inside the axis. |
| TouchScreen.OrientInRange | CM7/Core/Src/touch_screen.c:125-139 | Covers `Orient`, the orientation step (swap, then mirror each flagged axis). A point inside the controller area, in the oriented frame, stays inside after orientation, for every flag combination. |
| TouchScreen.ToScreenInRange | CM7/Core/Src/touch_screen.c:142-143 | Covers `ToScreen`, the wrapping product divided by the axis maximum. Without 32-bit overflow, a coordinate below the axis maximum scales to a pixel below the screen size. |
| TouchScreen.Deadband | CM7/Core/Src/touch_screen.c:146-163 | The reported point is the new point or the last one, always within the accuracy of the touch on both axes, and the new point when it moved beyond the accuracy. |
| TouchScreen.FirstTouchAccepted | CM7/Core/Src/touch_screen.c:101-102 | With the initial seed and no wrap-around, the first on-screen touch passes the deadband. |
| TouchScreen.Touch.constructor | CM7/Core/Src/touch_screen.c:12-19 | Zeroed static storage: the screen is disabled. |
| TouchScreen.Touch.Init | CM7/Core/Src/touch_screen.c:64-105 | Stores the configuration, enables the screen and seeds the last point at size + accuracy + 1. A found controller sets the axis maxima and gives Ok; none found gives Error. |
| TouchScreen.Touch.GetState | CM7/Core/Src/touch_screen.c:107-109 | Returns the stored state. |
| TouchScreen.Touch.Enable | CM7/Core/Src/touch_screen.c:174-176 | The state becomes enabled. |
| TouchScreen.Touch.Disable | CM7/Core/Src/touch_screen.c:178-180 | The state becomes disabled. |
| TouchScreen.Touch.GetInfo | CM7/Core/Src/touch_screen.c:111-172 | Busy when disabled; Error for a null out-parameter or a failed read, changing nothing in either case. On Ok: the reported point equals the stored last point, and that point follows the deadband (kept when there is no touch). The point fed to the deadband is `ScreenPoint`, the oriented and scaled reading; the new last point is stated by the two-state predicate `Tracked`. |
| Controls.ScalesAccepted | CM7/Core/Src/main.c:173 | Every vertical scale on the knob lies in the chart's bounds. |
| Controls.XScalesAccepted | CM7/Core/Src/main.c:174 | The time scales 10, 50, 100 and 500 are refused by the chart's bounds, and all the others are accepted. |
| Controls.TriggerLevel | CM7/Core/Src/main.c:165 | The trigger level is exactly four times the reading if and only if that fits in 16 bits. For 12-bit readings it is at most 16380. |
| Controls.VoltageIndex | CM7/Core/Src/main.c:181 | The voltage-mode index is inside the scales table if and only if the reading is 12-bit. |
| Controls.TimeIndex | CM7/Core/Src/main.c:190 | The time-mode index is inside the time-scales table if and only if the reading is at most 3723. |
| Controls.TimeIndexOverrun | CM7/Core/Src/main.c:190-194 | The 12-bit reading 4095 selects index 10, one past the end of the time-scales table. |
| Controls.CorrectedTimeIndex | CM7/Core/Src/main.c:190 | With bands of 409.6 counts, every 12-bit reading selects an entry of the table. |
| Controls.CorrectedTimeIndexMonotonic | CM7/Core/Src/main.c:190 | The corrected index never decreases as the knob turns up. |
| Controls.ElapsedTime | CM7/Core/Src/main.c:1327-1331 | The elapsed time passed to the chart is at least 1, and equals the timer count when that is non-zero. |
| Controls.ElapsedTimePositive | CM7/Core/Src/main.c:1327-1331 | The chart's time per sample is therefore positive. |
| Controls.Zoom | CM7/Core/Src/main.c:1283-1314 | After a joystick press channel 2 is unchanged and channel 1's scale is either unchanged or accepted by the bounds. |
| Controls.ZoomRoundTrip | CM7/Core/Src/main.c:1291-1306 | Halving undoes an accepted doubling. |
| Controls.ZoomKeepsRange | CM7/Core/Src/main.c:1283-1314 | A scale in range stays in range through any sequence of presses. |
| Controls.ZoomAll | CM7/Core/Src/main.c:1283-1314 | No sequence of joystick presses ever changes channel 2's scales. |
| Controls.NextKnob | CM7/Core/Src/main.c:385-387 | The knob counter stays below the knob count and advances by one modulo it. |
| Controls.KnobCycle | CM7/Core/Src/main.c:355-387 | After q full rounds and r more polls from 0, the counter is r. |
| Controls.InputState.constructor | CM7/Core/Src/main.c:159-203 | The statics start at their declared values: readings 0, both table indexes 6, unlocked, last press 0, knob 0. |
| Controls.Band | CM7/Core/Src/main.c:161 | A reading's band b is the one with 50*b <= reading < 50*b + 50, so two readings share a band exactly when they fall in the same run of 50 counts. |
| Controls.InputState.UpdateKnobTrigger | CM7/Core/Src/main.c:158-167 | A reading in the same 50-count band changes nothing. Otherwise it becomes the last reading and sets channel 1's trigger to four times the reading. |
| Controls.InputState.UpdateKnobScale | CM7/Core/Src/main.c:169-200 | In voltage or time mode, an index different from the last one is stored and its table entry goes to channel 1's setter, which refuses entries out of bounds. Otherwise nothing changes. In time mode the reading must be at most 3723. |
| Controls.InputState.UpdateKnobOffset | CM7/Core/Src/main.c:202-220 | A reading in a new band is stored whatever the mode. Its voltage then becomes channel 1's offset in voltage mode or its time offset in time mode, and nothing happens in other modes. |
| Controls.InputState.PollKnob | CM7/Core/Src/main.c:365-387 | Knob 0, 1 and 2 go to the scale, offset and trigger handler, and other knobs do nothing. The counter then advances modulo the knob count. |
| Controls.InputState.ExtiCallback | CM7/Core/Src/main.c:1245-1317 | A locked call does nothing, and the lock is released on exit. The button toggles only after the debounce time (wrapping difference). A touch is shown only on a successful read. The joystick moves the time offset by 50 or zooms the scales within bounds, with the same effect on channel 1's window as the zoom helpers. |
| Controls.Joystick | CM7/Core/Src/main.c:1283-1314 | Left halves and right doubles channel 1's time scale; up doubles and down halves its scale. Each has the zoom helpers' full effect on scales, window and ready flags. |
| Controls.ZoomScale | CM7/Core/Src/main.c:1291-1306 | The vertical scale after an up or down press is the doubled or halved scale if the bounds accept it, else unchanged. An accepted scale empties channel 1's window and clears its ready flag. A refused one leaves the window and ready flags as they were. The time scale and offset are untouched. |
| Controls.ZoomXScale | CM7/Core/Src/main.c:1283-1290 | The time scale after a left or right press is the halved or doubled scale if the bounds accept it, else unchanged. An accepted scale empties channel 1's window and clears its ready flag. A refused one leaves the window and ready flags as they were. The scale and offset are untouched. |
| Controls.InputState.PressButton | CM7/Core/Src/main.c:1254-1261 | A press counts, and toggles channel 1's acquisition, exactly when the wrapping difference from the last counted press reaches the debounce time. Only then is the press time stored. |
| Controls.InputState.ReportTouch | CM7/Core/Src/main.c:1269-1274 | The touch status is shown, with the screen's last accepted point, exactly when the screen is enabled and the driver read succeeds. Otherwise the log and the touch state are unchanged. |
| Controls.InputState.ConversionComplete | CM7/Core/Src/main.c:1324-1336 | Completion of the channel ADC updates the chart with the clamped elapsed time. Any other ADC changes nothing. |

## Left out

- A null chart handler is not modelled: the methods act on an existing `ChartHandler`. A null display pointer is modelled.
- Floating-point rounding: values are reals. The decimation's accumulated delta is exact, which is what gives it a closed form.
- The I2C bus traffic and the FT6X06 driver calls (register bus, identification, capabilities, state read) are not part of this model. Their outcomes are inputs: the capabilities found, or none, and the reading, or none.
- `lvgl_api` (the display) is not part of this model. Its point updates are recorded by `Sink`, and the touch status is recorded in the effect log.
- The chart functions `chart_handler_set_trigger`, `chart_handler_knob_get_mode`, `chart_handler_toggle_running`, `chart_handler_is_running`, `chart_handler_set_x_offset` and `chart_handler_get_x_offset` are not defined in the modelled files. Calls to them are logged as effects, and the values they return are inputs.
- UART messages, LED writes, `sprintf`, the main loop's tick polling and LED blink, `select_knob_channel`, and the ADC start/stop/poll calls are I/O and timing. They are left out.
- Peripheral bring-up in `main.c` (clocks, ADC, DMA, display, I2C, UART, SDRAM) and the boot semaphores are hardware configuration with no behaviour to state.
- Interleaving of interrupts with the main loop is not modelled. Each handler runs as one atomic step, and the lock is modelled only as the flag it is.
- Controls.InputState.UpdateKnobScale: requires a time-mode reading of at most 3723, because a larger reading reads past the end of the time-scales table (see Findings). The model follows the code as written here rather than the corrected index.

## Findings

| source | as written | input that shows it | evidently intended | confidence | as-written member | corrected member |
|---|---|---|---|---|---|---|
| CM7/Core/Src/main.c:190-194 | The time-mode index is `value / 372.36`, which is 4096 / 11. A 12-bit ADC reading of 3724 or more gives index 10, one past the end of the ten-entry `x_scales` table. | knob in time mode at reading 4095 gives index 10 | Divide the 12-bit range into ten bands of 409.6 counts, as voltage mode divides it into eight bands of 512 for its eight-entry table. Every reading then selects an entry. | high, not executed | Controls.TimeIndexOverrun | Controls.CorrectedTimeIndex |
