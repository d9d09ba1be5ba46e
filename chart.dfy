/**
 * Chart acquisition state machine of the oscilloscope (CM7/Core/Src/chart_handler.c).
 *
 * Each of the two channels owns a capture window: `raw` holds decimated ADC codes,
 * `data` the same window converted to grid units. The conversion-complete interrupt
 * decimates the DMA buffer into `raw` (Update); the main loop converts a ready window
 * and hands it to the display (Routine). Single-precision floats are modelled as real
 * numbers: rounding is abstracted away.
 */
module Chart {

  /** CHART_HANDLER_CHANNEL_1 is 0, CHART_HANDLER_CHANNEL_2 is 1. */
  const CHANNEL_COUNT: nat := 2
  type Channel = c: nat | c < CHANNEL_COUNT
  const CH1: Channel := 0
  const CH2: Channel := 1

  type Positive = n: nat | n > 0 witness 1

  /** Capacity of a capture window and number of window values per grid division.
      Their values are not part of this model: every result holds for any positive value. */
  const VALUES_COUNT: Positive
  const VALUES_PER_DIVISION: Positive

  /** Time-per-division bounds in microseconds and volts-per-division bounds in millivolts. */
  const MIN_X_SCALE: real := 1000.0
  const MAX_X_SCALE: real := 100000.0
  const MIN_Y_SCALE: real := 10.0
  const MAX_Y_SCALE: real := 10000.0

  /** Length of one DMA revolution of the raw ADC buffer: (uint32)MAX_X_SCALE / 1000 + 1. */
  const SAMPLE_COUNT: nat := 100000 / 1000 + 1

  /** A 16-bit ADC code, as stored in the raw buffers. */
  type Sample = x: int | 0 <= x < 0x1_0000

  /** An unsigned 32-bit value (the elapsed microseconds passed to Update). */
  type U32 = x: int | 0 <= x < 0x1_0000_0000

  /** The ADC transfer function (ADC_VALUE_TO_VOLTAGE); its definition is not part of this model. */
  const ADC_TO_VOLTS: Sample -> real

  predicate ScaleInRange(v: real) { MIN_Y_SCALE <= v <= MAX_Y_SCALE }

  predicate XScaleInRange(v: real) { MIN_X_SCALE <= v <= MAX_X_SCALE }

  /** Duration of one raw sample when a revolution took t microseconds. */
  function TimePerSample(t: U32): real { t as real / SAMPLE_COUNT as real }

  /** Duration represented by one window value at time scale xs. */
  function TimePerValue(xs: real): real { xs / VALUES_PER_DIVISION as real }

  // ---------------------------------------------------------------------------
  // Decimation, as a closed form

  /**
   * Raw samples from one copy to the next when a raw sample lasts tps and a window
   * value tpv: tpv / tps rounded up, the least k >= 1 with k * tps >= tpv (see
   * PeriodThreshold). When tps is 0 the accumulated time never reaches tpv and no
   * sample is copied; SAMPLE_COUNT stands for "never".
   */
  function Period(tps: real, tpv: real): (s: nat)
    requires tps >= 0.0 && tpv > 0.0
    ensures s >= 1
    ensures tps > 0.0 ==> tpv / tps <= s as real < tpv / tps + 1.0
    ensures tps == 0.0 ==> s == SAMPLE_COUNT
  {
    if tps == 0.0 then SAMPLE_COUNT
    else
      var q := tpv / tps;
      assert q > 0.0;
      var f := q.Floor;
      if f as real == q then f else f + 1
  }

  lemma RealMulLe(a: real, b: real, x: real)
    requires a <= b && x > 0.0
    ensures a * x <= b * x
  {}

  lemma RealMulLt(a: real, b: real, x: real)
    requires a < b && x > 0.0
    ensures a * x < b * x
  {}

  lemma RealDivLe(a: real, b: real, x: real)
    requires a <= b && x > 0.0
    ensures a / x <= b / x
  {}

  /** Sample i of a pass is copied exactly when the time accumulated since the last copy,
      p raw samples, has reached one window value, that is when p has reached the period. */
  lemma {:induction false} PeriodThreshold(tps: real, tpv: real, p: nat)
    requires tps >= 0.0 && tpv > 0.0
    requires p <= Period(tps, tpv) && p < SAMPLE_COUNT
    ensures (p as real * tps >= tpv) <==> p == Period(tps, tpv)
  {
    var s := Period(tps, tpv);
    if tps > 0.0 {
      var q := tpv / tps;
      assert q * tps == tpv;
      if p == s {
        RealMulLe(q, p as real, tps);
      } else {
        RealMulLt(p as real, q, tps);
      }
    }
  }

  /** A longer time per value never makes the period shorter: a slower time base
      samples the raw buffer more sparsely. */
  lemma {:induction false} PeriodMonotonic(tps: real, tpv1: real, tpv2: real)
    requires tps > 0.0 && 0.0 < tpv1 <= tpv2
    ensures Period(tps, tpv1) <= Period(tps, tpv2)
  {
    RealDivLe(tpv1, tpv2, tps);
  }

  lemma IntMulLe(a: nat, b: nat, x: nat)
    requires a <= b
    ensures a * x <= b * x
  {}

  lemma MultipleBounds(d: int, s: nat)
    ensures d >= 1 ==> d * s >= s
    ensures d <= -1 ==> d * s + s <= 0
  {
    if d >= 1 {
      IntMulLe(1, d, s);
    }
    if d <= -1 {
      IntMulLe(1, -d, s);
      assert (-d) * s == -(d * s);
    }
  }

  /**
   * The closed form of one pass over a channel whose window row was `before` with
   * cursor k0: the j-th copied value (j from 0) goes to slot k0 + j and comes from raw
   * sample (j + 1) * s. When the copies reach the end of the window the pass stops, the
   * window is ready and the cursor goes back to 0; otherwise the cursor advances by the
   * number of copies.
   */
  ghost predicate Decimated(before: seq<Sample>, k0: nat, samples: seq<Sample>, s: nat,
                            after: seq<Sample>, k1: nat, readyAfter: bool)
    requires |before| == VALUES_COUNT && |after| == VALUES_COUNT
    requires |samples| == SAMPLE_COUNT && s >= 1 && k0 < VALUES_COUNT
  {
    && (readyAfter <==> (VALUES_COUNT - k0) * s < SAMPLE_COUNT)
    && (readyAfter ==> k1 == 0)
    && (!readyAfter ==> k0 <= k1 && (k1 - k0) * s < SAMPLE_COUNT <= (k1 - k0 + 1) * s)
    && forall k :: 0 <= k < VALUES_COUNT ==>
         if k0 <= k && (k - k0 + 1) * s < SAMPLE_COUNT
         then after[k] == samples[(k - k0 + 1) * s]
         else after[k] == before[k]
  }

  /** Loop state of a pass before raw sample i: the first n slots from k0 are written,
      slot k0 + j from raw sample (j + 1) * s < i, and the rest of the row is as before. */
  ghost predicate Filled(before: seq<Sample>, k0: nat, samples: seq<Sample>, s: nat,
                         row: seq<Sample>, n: nat, i: nat)
    requires |before| == VALUES_COUNT && |row| == VALUES_COUNT && |samples| == SAMPLE_COUNT
  {
    forall k :: 0 <= k < VALUES_COUNT ==>
      if k0 <= k < k0 + n
      then (k - k0 + 1) * s < i && (k - k0 + 1) * s < SAMPLE_COUNT && row[k] == samples[(k - k0 + 1) * s]
      else row[k] == before[k]
  }

  /** Skipping raw sample i keeps what is written. */
  lemma FilledSkip(before: seq<Sample>, k0: nat, samples: seq<Sample>, s: nat,
                   row: seq<Sample>, n: nat, i: nat)
    requires |before| == VALUES_COUNT && |row| == VALUES_COUNT && |samples| == SAMPLE_COUNT
    requires Filled(before, k0, samples, s, row, n, i)
    ensures Filled(before, k0, samples, s, row, n, i + 1)
  {}

  /** Copying raw sample i = (n + 1) * s into slot k0 + n extends the written part. */
  lemma FilledStep(before: seq<Sample>, k0: nat, samples: seq<Sample>, s: nat,
                   row: seq<Sample>, row': seq<Sample>, n: nat, i: nat)
    requires |before| == VALUES_COUNT && |row| == VALUES_COUNT && |row'| == VALUES_COUNT
    requires |samples| == SAMPLE_COUNT && i < SAMPLE_COUNT && i == (n + 1) * s
    requires k0 + n < VALUES_COUNT && Filled(before, k0, samples, s, row, n, i)
    requires row' == row[k0 + n := samples[i]]
    ensures Filled(before, k0, samples, s, row', n + 1, i + 1)
  {}

  /** A pass that wrote up to the end of the window has completed it. */
  lemma FilledComplete(before: seq<Sample>, k0: nat, samples: seq<Sample>, s: nat,
                       row: seq<Sample>, n: nat, i: nat)
    requires |before| == VALUES_COUNT && |row| == VALUES_COUNT && |samples| == SAMPLE_COUNT
    requires s >= 1 && k0 < VALUES_COUNT && k0 + n == VALUES_COUNT && i < SAMPLE_COUNT
    requires n * s <= i && Filled(before, k0, samples, s, row, n, i + 1)
    ensures Decimated(before, k0, samples, s, row, 0, true)
  {}

  /** A pass that went through the whole revolution without completing the window. */
  lemma FilledPass(before: seq<Sample>, k0: nat, samples: seq<Sample>, s: nat,
                   row: seq<Sample>, n: nat, phase: nat)
    requires |before| == VALUES_COUNT && |row| == VALUES_COUNT && |samples| == SAMPLE_COUNT
    requires s >= 1 && k0 + n < VALUES_COUNT && 1 <= phase <= s
    requires SAMPLE_COUNT == n * s + phase && Filled(before, k0, samples, s, row, n, SAMPLE_COUNT)
    ensures Decimated(before, k0, samples, s, row, k0 + n, false)
  {
    IntMulLe(n + 1, VALUES_COUNT - k0, s);
    forall k | 0 <= k < VALUES_COUNT && k0 + n <= k
      ensures (k - k0 + 1) * s >= SAMPLE_COUNT && row[k] == before[k]
    {
      IntMulLe(n + 1, k - k0 + 1, s);
    }
  }

  /** The window cursor a pass leaves behind is inside the window, so the next pass's
      write raw[ch][index] is in bounds. */
  lemma {:induction false} DecimatedCursorInWindow(before: seq<Sample>, k0: nat, samples: seq<Sample>, s: nat,
                                                   after: seq<Sample>, k1: nat, readyAfter: bool)
    requires |before| == VALUES_COUNT && |after| == VALUES_COUNT
    requires |samples| == SAMPLE_COUNT && s >= 1 && k0 < VALUES_COUNT
    requires Decimated(before, k0, samples, s, after, k1, readyAfter)
    ensures k1 < VALUES_COUNT
  {
    if !readyAfter && k1 >= VALUES_COUNT {
      IntMulLe(VALUES_COUNT - k0, k1 - k0, s);
    }
  }

  /** The number of values a pass adds to a window it does not complete is the number of
      positive multiples of the period below SAMPLE_COUNT. */
  lemma {:induction false} DecimatedCount(before: seq<Sample>, k0: nat, samples: seq<Sample>, s: nat,
                                          after: seq<Sample>, k1: nat, readyAfter: bool)
    requires |before| == VALUES_COUNT && |after| == VALUES_COUNT
    requires |samples| == SAMPLE_COUNT && s >= 1 && k0 < VALUES_COUNT
    requires Decimated(before, k0, samples, s, after, k1, readyAfter) && !readyAfter
    ensures k1 - k0 == (SAMPLE_COUNT - 1) / s
  {
    var c, n := k1 - k0, SAMPLE_COUNT - 1;
    var q := n / s;
    assert n == q * s + n % s && 0 <= n % s < s;
    assert c * s <= n < c * s + s;
    assert (q - c) * s == q * s - c * s;
    MultipleBounds(q - c, s);
  }

  /** Every slot a pass writes holds a raw sample other than sample 0 (the time
      accumulated since the last copy restarts at 0 with each pass), taken one period
      after the sample in the previous slot. */
  lemma {:induction false} DecimatedSources(before: seq<Sample>, k0: nat, samples: seq<Sample>, s: nat,
                                            after: seq<Sample>, k1: nat, readyAfter: bool, k: nat)
    requires |before| == VALUES_COUNT && |after| == VALUES_COUNT
    requires |samples| == SAMPLE_COUNT && s >= 1 && k0 < VALUES_COUNT
    requires Decimated(before, k0, samples, s, after, k1, readyAfter)
    requires k0 <= k < VALUES_COUNT && (k - k0 + 1) * s < SAMPLE_COUNT
    ensures (k - k0 + 1) * s >= 1
    ensures after[k] == samples[(k - k0 + 1) * s]
    ensures k > k0 ==> (k - k0) * s < SAMPLE_COUNT && after[k - 1] == samples[(k - k0) * s]
  {
    IntMulLe(1, k - k0 + 1, s);
    if k > k0 {
      IntMulLe(k - k0, k - k0 + 1, s);
    }
  }

  // ---------------------------------------------------------------------------
  // Transform

  /** Display value of a window sample: its voltage shifted by the offset, in units of
      the scale; multiplying back by the scale and removing the offset gives the voltage. */
  function GridUnits(code: Sample, offset: real, scale: real): (g: real)
    requires scale != 0.0
    ensures g * scale - offset == ADC_TO_VOLTS(code)
  {
    (ADC_TO_VOLTS(code) + offset) / scale
  }

  /** Channel c's row of a per-channel buffer. */
  function Row<T>(a: array2<T>, c: Channel): (r: seq<T>)
    requires a.Length0 == CHANNEL_COUNT
    reads a
    ensures |r| == a.Length1 && forall k :: 0 <= k < a.Length1 ==> r[k] == a[c, k]
  {
    seq(a.Length1, k requires 0 <= k < a.Length1 reads a => a[c, k])
  }

  /** One call of the display's point update (lv_api_update_points). */
  datatype Publish = Publish(ch: Channel, points: seq<real>)

  /** The presentation sink: it records every window handed to it. */
  class Sink {
    var published: seq<Publish>

    constructor ()
      ensures published == []
    {
      published := [];
    }

    method UpdatePoints(ch: Channel, points: seq<real>)
      modifies this
      ensures published == old(published) + [Publish(ch, points)]
    {
      published := published + [Publish(ch, points)];
    }
  }

  /** Every channel's row of a per-channel buffer. */
  function Rows<T>(a: array2<T>): (r: seq<seq<T>>)
    requires a.Length0 == CHANNEL_COUNT
    reads a
    ensures |r| == CHANNEL_COUNT
  {
    seq(CHANNEL_COUNT, c requires 0 <= c < CHANNEL_COUNT reads a => Row(a, c))
  }

  /** The publications Routine makes for the channels below c: one per enabled and ready
      channel, in channel order, carrying that channel's row. */
  function Published(rows: seq<seq<real>>, enabled: seq<bool>, ready: seq<bool>, c: nat): seq<Publish>
    requires |rows| == CHANNEL_COUNT && |enabled| == CHANNEL_COUNT && |ready| == CHANNEL_COUNT
    requires c <= CHANNEL_COUNT
  {
    if c == 0 then []
    else Published(rows, enabled, ready, c - 1)
         + (if enabled[c - 1] && ready[c - 1] then [Publish(c - 1, rows[c - 1])] else [])
  }

  /** The publications for the channels below c depend only on those channels' rows. */
  lemma {:induction false} PublishedFrame(rows1: seq<seq<real>>, rows2: seq<seq<real>>,
                                          enabled: seq<bool>, ready: seq<bool>, c: nat)
    requires |rows1| == CHANNEL_COUNT && |rows2| == CHANNEL_COUNT
    requires |enabled| == CHANNEL_COUNT && |ready| == CHANNEL_COUNT && c <= CHANNEL_COUNT
    requires forall x :: 0 <= x < c ==> rows1[x] == rows2[x]
    ensures Published(rows1, enabled, ready, c) == Published(rows2, enabled, ready, c)
  {
    if c > 0 {
      PublishedFrame(rows1, rows2, enabled, ready, c - 1);
    }
  }

  // ---------------------------------------------------------------------------
  // The handler

  class ChartHandler {
    var api: Sink?
    var enabled: seq<bool>
    var ready: seq<bool>
    var index: seq<nat>
    var scale: seq<real>    // volts per division, in mV
    var xScale: seq<real>   // time per division, in us
    var offset: seq<real>   // vertical offset, in mV
    const raw: array2<Sample>
    const data: array2<real>

    /** Shapes of the per-channel state; the window cursor stays inside the window. */
    ghost predicate Valid()
      reads this
    {
      && |enabled| == CHANNEL_COUNT && |ready| == CHANNEL_COUNT && |index| == CHANNEL_COUNT
      && |scale| == CHANNEL_COUNT && |xScale| == CHANNEL_COUNT && |offset| == CHANNEL_COUNT
      && raw.Length0 == CHANNEL_COUNT && raw.Length1 == VALUES_COUNT
      && data.Length0 == CHANNEL_COUNT && data.Length1 == VALUES_COUNT
      && forall c: Channel :: index[c] < VALUES_COUNT
    }

    /** Both scales of every channel lie within the setter bounds, which Init establishes
        and every setter keeps; in particular Routine never divides by zero. */
    ghost predicate Configured()
      requires Valid()
      reads this
    {
      forall c: Channel :: ScaleInRange(scale[c]) && XScaleInRange(xScale[c])
    }

    /** The zero-filled static storage of the handler, before chart_handler_init. */
    constructor ()
      ensures Valid() && fresh(raw) && fresh(data)
      ensures api == null
      ensures enabled == [false, false] && ready == [false, false] && index == [0, 0]
      ensures scale == [0.0, 0.0] && xScale == [0.0, 0.0] && offset == [0.0, 0.0]
      ensures forall c: Channel, k :: 0 <= k < VALUES_COUNT ==> raw[c, k] == 0 && data[c, k] == 0.0
    {
      api := null;
      enabled, ready, index := [false, false], [false, false], [0, 0];
      scale, xScale, offset := [0.0, 0.0], [0.0, 0.0], [0.0, 0.0];
      raw := new Sample[CHANNEL_COUNT, VALUES_COUNT]((c, k) => 0);
      data := new real[CHANNEL_COUNT, VALUES_COUNT]((c, k) => 0.0);
    }

    /** chart_handler_init: without a display api nothing changes; otherwise the whole
        handler is cleared, channel 1 is enabled and both channels get the default scales. */
    method Init(api: Sink?)
      requires Valid()
      modifies this, raw, data
      ensures Valid()
      ensures api == null ==>
                unchanged(this) && unchanged(raw) && unchanged(data)
      ensures api != null ==>
                && this.api == api && Configured()
                && enabled == [true, false] && ready == [false, false] && index == [0, 0]
                && xScale == [5000.0, 5000.0] && scale == [1000.0, 1000.0] && offset == [0.0, 0.0]
                && forall c: Channel, k :: 0 <= k < VALUES_COUNT ==> raw[c, k] == 0 && data[c, k] == 0.0
    {
      if api == null {
        return;
      }
      forall c, k | 0 <= c < CHANNEL_COUNT && 0 <= k < VALUES_COUNT {
        raw[c, k] := 0;
      }
      forall c, k | 0 <= c < CHANNEL_COUNT && 0 <= k < VALUES_COUNT {
        data[c, k] := 0.0;
      }
      this.api := api;
      ready, index, offset := [false, false], [0, 0], [0.0, 0.0];
      enabled := [true, false];
      xScale := [5000.0, 5000.0];
      scale := [1000.0, 1000.0];
    }

    method SetEnable(ch: Channel, e: bool)
      requires Valid()
      modifies this`enabled
      ensures Valid() && enabled == old(enabled)[ch := e]
    {
      enabled := enabled[ch := e];
    }

    method ToggleEnable(ch: Channel)
      requires Valid()
      modifies this`enabled
      ensures Valid() && enabled == old(enabled)[ch := !old(enabled[ch])]
    {
      enabled := enabled[ch := !enabled[ch]];
    }

    method GetOffset(ch: Channel) returns (r: real)
      requires Valid()
      ensures r == offset[ch]
    {
      r := offset[ch];
    }

    method GetScale(ch: Channel) returns (r: real)
      requires Valid()
      ensures r == scale[ch]
    {
      r := scale[ch];
    }

    method GetXScale(ch: Channel) returns (r: real)
      requires Valid()
      ensures r == xScale[ch]
    {
      r := xScale[ch];
    }

    /** What Invalidate does to channel ch: not ready, both window rows zeroed; the
        other channel's rows are as they were. */
    twostate predicate Cleared(ch: Channel)
      requires old(Valid()) && Valid()
      reads this, raw, data
    {
      && ready == old(ready)[ch := false]
      && (forall k :: 0 <= k < VALUES_COUNT ==> raw[ch, k] == 0 && data[ch, k] == 0.0)
      && (forall c: Channel, k :: c != ch && 0 <= k < VALUES_COUNT ==>
            raw[c, k] == old(raw[c, k]) && data[c, k] == old(data[c, k]))
    }

    /** chart_handler_invalidate: drops channel ch's window. The cursor, the scales, the
        offset and the other channel are untouched. */
    method Invalidate(ch: Channel)
      requires Valid()
      modifies this`ready, raw, data
      ensures Valid() && Cleared(ch)
    {
      ready := ready[ch := false];
      forall k | 0 <= k < VALUES_COUNT {
        raw[ch, k] := 0;
      }
      forall k | 0 <= k < VALUES_COUNT {
        data[ch, k] := 0.0;
      }
    }

    /** chart_handler_set_offset: any value is accepted, then the channel is invalidated. */
    method SetOffset(ch: Channel, value: real)
      requires Valid()
      modifies this`offset, this`ready, raw, data
      ensures Valid() && offset == old(offset)[ch := value] && Cleared(ch)
    {
      offset := offset[ch := value];
      Invalidate(ch);
    }

    /** chart_handler_set_scale: a value outside [MIN_Y_SCALE, MAX_Y_SCALE] is rejected
        and changes nothing; an accepted one is stored and invalidates the channel. */
    method SetScale(ch: Channel, value: real)
      requires Valid()
      modifies this`scale, this`ready, raw, data
      ensures Valid()
      ensures scale == if ScaleInRange(value) then old(scale)[ch := value] else old(scale)
      ensures ScaleInRange(value) ==> Cleared(ch)
      ensures !ScaleInRange(value) ==> ready == old(ready) && unchanged(raw) && unchanged(data)
      ensures old(Configured()) ==> Configured()
    {
      if value > MAX_Y_SCALE || value < MIN_Y_SCALE {
        return;
      }
      scale := scale[ch := value];
      Invalidate(ch);
    }

    /** chart_handler_set_x_scale: the same rule for the time scale and its bounds
        [MIN_X_SCALE, MAX_X_SCALE]. */
    method SetXScale(ch: Channel, value: real)
      requires Valid()
      modifies this`xScale, this`ready, raw, data
      ensures Valid()
      ensures xScale == if XScaleInRange(value) then old(xScale)[ch := value] else old(xScale)
      ensures XScaleInRange(value) ==> Cleared(ch)
      ensures !XScaleInRange(value) ==> ready == old(ready) && unchanged(raw) && unchanged(data)
      ensures old(Configured()) ==> Configured()
    {
      if value > MAX_X_SCALE || value < MIN_X_SCALE {
        return;
      }
      xScale := xScale[ch := value];
      Invalidate(ch);
    }

    /** Stores v at the channel's window cursor and advances the cursor. */
    method Push(ch: Channel, v: Sample)
      requires Valid()
      modifies this`index, raw
      ensures index == old(index)[ch := old(index[ch]) + 1]
      ensures Row(raw, ch) == old(Row(raw, ch))[old(index[ch]) := v]
      ensures forall c: Channel, k :: c != ch && 0 <= k < VALUES_COUNT ==> raw[c, k] == old(raw[c, k])
    {
      raw[ch, index[ch]] := v;
      index := index[ch := index[ch] + 1];
    }

    /** One raw sample i of a decimation pass: the sample is copied once the time since
        the last copy has reached the time per value, then its own time is added. The
        ghost parameters track the pass: `phase` samples since the last copy, `done`
        copies so far, with period s. */
    method DecimateSample(ch: Channel, samples: seq<Sample>, tps: real, timePerValue: real,
                          i: nat, delta: real, ghost before: seq<Sample>, ghost s: nat,
                          ghost k0: nat, ghost phase: nat, ghost done: nat)
      returns (delta': real, ghost phase': nat, ghost done': nat)
      requires Valid() && |samples| == SAMPLE_COUNT && |before| == VALUES_COUNT
      requires tps >= 0.0 && timePerValue > 0.0 && s == Period(tps, timePerValue)
      requires i < SAMPLE_COUNT && i == done * s + phase && phase <= s && (i > 0 ==> phase >= 1)
      requires delta == phase as real * tps && index[ch] == k0 + done
      requires Filled(before, k0, samples, s, Row(raw, ch), done, i)
      modifies this`index, raw
      ensures i + 1 == done' * s + phase' && 1 <= phase' <= s && done <= done' <= done + 1
      ensures delta' == phase' as real * tps
      ensures index == old(index)[ch := k0 + done']
      ensures Filled(before, k0, samples, s, Row(raw, ch), done', i + 1)
      ensures forall c: Channel, k :: c != ch && 0 <= k < VALUES_COUNT ==> raw[c, k] == old(raw[c, k])
    {
      assert phase <= i by { IntMulLe(0, done, s); }
      PeriodThreshold(tps, timePerValue, phase);
      if delta >= timePerValue {
        assert i == (done + 1) * s;
        ghost var rowBefore := Row(raw, ch);
        Push(ch, samples[i]);
        FilledStep(before, k0, samples, s, rowBefore, Row(raw, ch), done, i);
        delta', phase', done' := tps, 1, done + 1;
      } else {
        FilledSkip(before, k0, samples, s, Row(raw, ch), done, i);
        assert (phase + 1) as real * tps == phase as real * tps + tps;
        delta', phase', done' := delta + tps, phase + 1, done;
      }
    }

    /** The inner loop of chart_handler_update for one enabled, not-ready channel: the
        time since the last copy accumulates per raw sample and a sample is copied into
        the window once it reaches the time of one window value. */
    method Decimate(ch: Channel, samples: seq<Sample>, tps: real)
      requires Valid() && Configured()
      requires |samples| == SAMPLE_COUNT && tps >= 0.0 && !ready[ch]
      modifies this`index, this`ready, raw
      ensures Valid()
      ensures Decimated(old(Row(raw, ch)), old(index[ch]), samples,
                        Period(tps, TimePerValue(xScale[ch])), Row(raw, ch), index[ch], ready[ch])
      ensures forall c: Channel :: c != ch ==>
                index[c] == old(index[c]) && ready[c] == old(ready[c]) && Row(raw, c) == old(Row(raw, c))
    {
      var timePerValue := xScale[ch] / VALUES_PER_DIVISION as real;
      ghost var s := Period(tps, timePerValue);
      ghost var k0 := index[ch];
      ghost var before := Row(raw, ch);
      ghost var phase: nat, done: nat := 0, 0;
      var delta := 0.0;
      var i := 0;
      while i < SAMPLE_COUNT
        invariant 0 <= i <= SAMPLE_COUNT && Valid()
        invariant i == done * s + phase && phase <= s && (i > 0 ==> phase >= 1)
        invariant delta == phase as real * tps
        invariant index[ch] == k0 + done && !ready[ch]
        invariant Filled(before, k0, samples, s, Row(raw, ch), done, i)
        invariant forall c: Channel, k :: c != ch && 0 <= k < VALUES_COUNT ==> raw[c, k] == old(raw[c, k])
        invariant forall c: Channel :: c != ch ==> index[c] == old(index[c]) && ready[c] == old(ready[c])
      {
        delta, phase, done := DecimateSample(ch, samples, tps, timePerValue, i, delta, before, s, k0, phase, done);
        if index[ch] >= VALUES_COUNT {
          index := index[ch := 0];
          ready := ready[ch := true];
          FilledComplete(before, k0, samples, s, Row(raw, ch), done, i);
          break;
        }
        i := i + 1;
      }
      if !ready[ch] {
        FilledPass(before, k0, samples, s, Row(raw, ch), done, phase);
      }
    }

    /**
     * chart_handler_update: one DMA revolution of t microseconds. A channel that is
     * disabled or already ready is skipped; every other channel gets one decimation pass
     * over its raw samples.
     */
    twostate predicate Updated(t: U32, src: seq<seq<Sample>>)
      requires old(Valid()) && Valid() && Configured()
      requires |src| == CHANNEL_COUNT && forall c: Channel :: |src[c]| == SAMPLE_COUNT
      reads this, raw
    {
      forall c: Channel ::
        if !enabled[c] || old(ready[c])
        then index[c] == old(index[c]) && ready[c] == old(ready[c]) && Row(raw, c) == old(Row(raw, c))
        else Decimated(old(Row(raw, c)), old(index[c]), src[c],
                       Period(TimePerSample(t), TimePerValue(xScale[c])),
                       Row(raw, c), index[c], ready[c])
    }

    method Update(t: U32, src: seq<seq<Sample>>)
      requires Valid() && Configured()
      requires |src| == CHANNEL_COUNT && forall c: Channel :: |src[c]| == SAMPLE_COUNT
      modifies this`index, this`ready, raw
      ensures Valid() && Configured() && Updated(t, src)
    {
      var timePerSample := t as real / SAMPLE_COUNT as real;
      for ch := 0 to CHANNEL_COUNT
        invariant Valid() && Configured()
        invariant forall c: Channel :: c < ch ==>
                    if !enabled[c] || old(ready[c])
                    then index[c] == old(index[c]) && ready[c] == old(ready[c]) && Row(raw, c) == old(Row(raw, c))
                    else Decimated(old(Row(raw, c)), old(index[c]), src[c],
                                   Period(timePerSample, TimePerValue(xScale[c])),
                                   Row(raw, c), index[c], ready[c])
        invariant forall c: Channel :: c >= ch ==>
                    index[c] == old(index[c]) && ready[c] == old(ready[c]) && Row(raw, c) == old(Row(raw, c))
      {
        if !enabled[ch] || ready[ch] {
          continue;
        }
        Decimate(ch, src[ch], timePerSample);
      }
    }

    /**
     * chart_handler_routine: every channel that is enabled and ready has its window
     * converted to grid units, published once, and is no longer ready. Other channels
     * are untouched.
     */
    method Routine()
      requires Valid() && Configured()
      modifies this`ready, data, api
      ensures Valid() && Configured()
      ensures forall c: Channel :: ready[c] == (old(ready[c]) && !enabled[c])
      ensures forall c: Channel, k :: 0 <= k < VALUES_COUNT ==>
                data[c, k] == if enabled[c] && old(ready[c])
                              then GridUnits(raw[c, k], offset[c], scale[c])
                              else old(data[c, k])
      ensures api != null ==>
                api.published == old(api.published) + Published(Rows(data), enabled, old(ready), CHANNEL_COUNT)
    {
      for ch := 0 to CHANNEL_COUNT
        invariant Valid() && Configured()
        invariant forall c: Channel :: ready[c] == if c < ch then old(ready[c]) && !enabled[c] else old(ready[c])
        invariant forall c: Channel, k :: 0 <= k < VALUES_COUNT ==>
                    data[c, k] == if c < ch && enabled[c] && old(ready[c])
                                  then GridUnits(raw[c, k], offset[c], scale[c])
                                  else old(data[c, k])
        invariant api != null ==>
                    api.published == old(api.published) + Published(Rows(data), enabled, old(ready), ch)
      {
        if !enabled[ch] || !ready[ch] {
          continue;
        }
        ghost var rowsBefore := Rows(data);
        for i := 0 to VALUES_COUNT
          modifies data
          invariant forall c: Channel, k :: 0 <= k < VALUES_COUNT ==>
                      data[c, k] == if (c < ch && enabled[c] && old(ready[c])) || (c == ch && k < i)
                                    then GridUnits(raw[c, k], offset[c], scale[c])
                                    else old(data[c, k])
        {
          var val := ADC_TO_VOLTS(raw[ch, i]);
          val := val + offset[ch];
          val := val / scale[ch];
          data[ch, i] := val;
        }
        PublishedFrame(rowsBefore, Rows(data), enabled, old(ready), ch);
        if api != null {
          api.UpdatePoints(ch, Row(data, ch));
        }
        ready := ready[ch := false];
      }
    }
  }
}
