/**
 * Touch-screen point filter (CM7/Core/Src/touch_screen.c).
 *
 * The module-level configuration `hts.config` is the class Touch; a point read from
 * the FT6X06 controller is oriented, scaled to the screen and passed through a
 * deadband of `accuracy` pixels around the last accepted point. All arithmetic is on
 * unsigned 32-bit values and wraps around as in C. The I2C traffic and the controller
 * driver are not part of this model: their results are inputs.
 */
module TouchScreen {
  import Chart

  const TWO_POW_32: int := 0x1_0000_0000
  type U32 = x: int | 0 <= x < TWO_POW_32

  /** Unsigned 32-bit wrap-around of an integer result. */
  function Wrap(x: int): U32 { x % TWO_POW_32 }

  /** Orientation flags, combined bitwise in the configuration's orientation field. */
  const SWAP_NONE: bv32 := 0x01
  const SWAP_X: bv32 := 0x02
  const SWAP_Y: bv32 := 0x04
  const SWAP_XY: bv32 := 0x08

  datatype TsState = Disabled | Enabled

  /** The HAL status codes the touch functions return. */
  datatype Status = Ok | Error | Busy

  /** A reading of the FT6X06 driver (FT6X06_State_t). */
  datatype Reading = Reading(touchDetected: U32, touchX: U32, touchY: U32)

  /** Largest coordinates the controller reports (MaxXl, MaxYl of its capabilities). */
  datatype Capabilities = Capabilities(maxX: U32, maxY: U32)

  datatype Option<T> = None | Some(value: T)

  /** Mirror of coordinate v on an axis of m positions: m - v - 1, wrapping below 0.
      The mirror lies inside the axis exactly when the coordinate does. */
  function Mirror(m: U32, v: U32): (r: U32)
    ensures r < m <==> v < m
  {
    Wrap(m - v - 1)
  }

  /** A coordinate inside the axis is mirrored inside the axis, and mirroring twice
      gives it back. */
  lemma MirrorInvolution(m: U32, v: U32)
    requires v < m
    ensures Mirror(m, v) == m - 1 - v < m
    ensures Mirror(m, Mirror(m, v)) == v
  {}

  /** A coordinate at or beyond the end of the axis underflows: its mirror wraps
      around to 2^32 + m - v - 1, which is never inside the axis. */
  lemma MirrorUnderflow(m: U32, v: U32)
    requires m <= v
    ensures Mirror(m, v) == TWO_POW_32 + m - v - 1
    ensures Mirror(m, v) >= m
  {}

  /** A driver point after the orientation step: X and Y exchanged under SWAP_XY, then
      mirrored on each axis whose flag is set. */
  function Orient(orientation: bv32, maxX: U32, maxY: U32, tx: U32, ty: U32): (p: (U32, U32))
  {
    var swapped := orientation & SWAP_XY == SWAP_XY;
    var x0 := if swapped then ty else tx;
    var y0 := if swapped then tx else ty;
    var x1 := if orientation & SWAP_X == SWAP_X then Mirror(maxX, x0) else x0;
    var y1 := if orientation & SWAP_Y == SWAP_Y then Mirror(maxY, y0) else y0;
    (x1, y1)
  }

  /** A point inside the controller's area in the oriented frame stays inside it after
      orientation, whichever flags are set. */
  lemma OrientInRange(orientation: bv32, maxX: U32, maxY: U32, tx: U32, ty: U32)
    requires orientation & SWAP_XY == SWAP_XY ==> ty < maxX && tx < maxY
    requires orientation & SWAP_XY != SWAP_XY ==> tx < maxX && ty < maxY
    ensures Orient(orientation, maxX, maxY, tx, ty).0 < maxX
    ensures Orient(orientation, maxX, maxY, tx, ty).1 < maxY
  {
    var swapped := orientation & SWAP_XY == SWAP_XY;
    var x0 := if swapped then ty else tx;
    var y0 := if swapped then tx else ty;
    MirrorInvolution(maxX, x0);
    MirrorInvolution(maxY, y0);
  }

  /** Coordinate v of an axis of max positions mapped to a screen axis of size pixels
      (the product is an unsigned 32-bit multiplication). */
  function ToScreen(v: U32, size: U32, max: U32): U32
    requires max > 0
  {
    Wrap(v * size) / max
  }

  /** Without overflow, a coordinate inside the controller's axis lands inside the
      screen's axis. */
  lemma {:induction false} ToScreenInRange(v: U32, size: U32, max: U32)
    requires 0 < max && v < max && 0 < size && v * size < TWO_POW_32
    ensures ToScreen(v, size, max) < size
  {
    var r := ToScreen(v, size, max);
    assert r == (v * size) / max;
    assert v * size <= (max - 1) * size by { Chart.IntMulLe(v, max - 1, size); }
    assert (max - 1) * size + size == max * size;
    assert r * max <= v * size;
    if r >= size {
      Chart.IntMulLe(size, r, max);
    }
  }

  function AbsDiff(a: U32, b: U32): U32
  {
    if a > b then a - b else b - a
  }

  /** The point the filter reports for a new touch at (x, y) when the last accepted
      point is (px, py): the new point when it moved by more than `accuracy` on either
      axis, else the last accepted point. The reported point is always within
      `accuracy` of the touch on both axes, and is the touch itself when it moved. */
  function Deadband(x: U32, y: U32, px: U32, py: U32, accuracy: U32): (r: (U32, U32))
    ensures r == (x, y) || r == (px, py)
    ensures AbsDiff(r.0, x) <= accuracy && AbsDiff(r.1, y) <= accuracy
    ensures (AbsDiff(x, px) > accuracy || AbsDiff(y, py) > accuracy) ==> r == (x, y)
  {
    if AbsDiff(x, px) > accuracy || AbsDiff(y, py) > accuracy then (x, y) else (px, py)
  }

  /** The seed of the last accepted point, width + accuracy + 1 (and likewise for the
      height), is farther than `accuracy` from every on-screen column: without
      wrap-around, the first touch on the screen is always accepted. */
  lemma FirstTouchAccepted(width: U32, height: U32, accuracy: U32, x: U32, y: U32)
    requires x < width && width + accuracy + 1 < TWO_POW_32
    ensures Deadband(x, y, Wrap(width + accuracy + 1), Wrap(height + accuracy + 1), accuracy) == (x, y)
  {}

  /** The out-parameter of ts_get_info (TsInfo). */
  class TsInfo {
    var detected: U32
    var x: U32
    var y: U32

    constructor ()
      ensures detected == 0 && x == 0 && y == 0
    {
      detected, x, y := 0, 0, 0;
    }
  }

  /** The configuration the touch functions share (hts.config). */
  class Touch {
    var state: TsState
    var width: U32
    var height: U32
    var orientation: bv32
    var accuracy: U32
    var maxX: U32
    var maxY: U32
    var prevX: U32
    var prevY: U32

    /** The zero-filled static storage, before ts_init: the state is TS_DISABLED. */
    constructor ()
      ensures state == Disabled && width == 0 && height == 0 && orientation == 0 && accuracy == 0
      ensures maxX == 0 && maxY == 0 && prevX == 0 && prevY == 0
    {
      state, width, height, orientation, accuracy := Disabled, 0, 0, 0, 0;
      maxX, maxY, prevX, prevY := 0, 0, 0, 0;
    }

    /**
     * ts_init: stores the configuration, enables the screen and seeds the last accepted
     * point just outside the screen. `controller` is what the controller initialisation
     * found at one of the two I2C addresses, None when neither answered; only a found
     * controller sets the axis sizes, and the status says which happened.
     */
    method Init(width: U32, height: U32, orientation: bv32, accuracy: U32,
                controller: Option<Capabilities>) returns (status: Status)
      modifies this
      ensures state == Enabled && this.width == width && this.height == height
      ensures this.orientation == orientation && this.accuracy == accuracy
      ensures prevX == Wrap(width + accuracy + 1) && prevY == Wrap(height + accuracy + 1)
      ensures controller.Some? ==>
                status == Ok && maxX == controller.value.maxX && maxY == controller.value.maxY
      ensures controller.None? ==> status == Error && maxX == old(maxX) && maxY == old(maxY)
    {
      state := Enabled;
      this.width := width;
      this.height := height;
      this.orientation := orientation;
      this.accuracy := accuracy;
      prevX := Wrap(width + accuracy + 1);
      prevY := Wrap(height + accuracy + 1);
      match controller {
        case Some(caps) =>
          maxX := caps.maxX;
          maxY := caps.maxY;
          status := Ok;
        case None =>
          status := Error;
      }
    }

    method GetState() returns (s: TsState)
      ensures s == state
    {
      s := state;
    }

    method Enable()
      modifies this`state
      ensures state == Enabled
    {
      state := Enabled;
    }

    method Disable()
      modifies this`state
      ensures state == Disabled
    {
      state := Disabled;
    }

    /** The screen point a driver reading maps to, before the deadband. */
    function ScreenPoint(r: Reading): (U32, U32)
      requires maxX > 0 && maxY > 0
      reads this
    {
      var p := Orient(orientation, maxX, maxY, r.touchX, r.touchY);
      (ToScreen(p.0, width, maxX), ToScreen(p.1, height, maxY))
    }

    /** The last accepted point after a reading: kept when nothing touches the screen,
        otherwise the deadband's choice between it and the reading's screen point. */
    twostate predicate Tracked(r: Reading)
      requires old(maxX > 0 && maxY > 0)
      reads this
    {
      (prevX, prevY) ==
        if r.touchDetected == 0 then (old(prevX), old(prevY))
        else var p := old(ScreenPoint(r));
             Deadband(p.0, p.1, old(prevX), old(prevY), old(accuracy))
    }

    /**
     * ts_get_info. A disabled screen answers Busy, a missing out-parameter or a failed
     * driver read answers Error, and none of them changes anything. Otherwise the answer
     * is Ok and the reported point is the last accepted point: for a touch, after the
     * deadband moved it to the new screen point or kept it; without a touch, as it was.
     * `reading` is the driver's answer, None when FT6X06_GetState failed.
     */
    method GetInfo(info: TsInfo?, reading: Option<Reading>) returns (status: Status)
      requires state == Enabled ==> maxX > 0 && maxY > 0
      modifies this`prevX, this`prevY, info
      ensures state == Disabled ==> status == Busy
      ensures state == Enabled && info == null ==> status == Error
      ensures state == Enabled && info != null && reading.None? ==> status == Error
      ensures status == Ok <==> state == Enabled && info != null && reading.Some?
      ensures status != Ok ==>
                prevX == old(prevX) && prevY == old(prevY) && (info != null ==> unchanged(info))
      ensures status == Ok ==>
                && info != null && reading.Some?
                && info.x == prevX && info.y == prevY
                && info.detected == reading.value.touchDetected
                && Tracked(reading.value)
    {
      if state == Disabled {
        return Busy;
      }
      if info == null {
        return Error;
      }
      if reading.None? {
        return Error;
      }
      var stat := reading.value;
      if stat.touchDetected != 0 {
        var xOriented, yOriented := stat.touchX, stat.touchY;
        if orientation & SWAP_XY == SWAP_XY {
          xOriented := stat.touchY;
          yOriented := stat.touchX;
        }
        if orientation & SWAP_X == SWAP_X {
          xOriented := Wrap(maxX - xOriented - 1);
        }
        if orientation & SWAP_Y == SWAP_Y {
          yOriented := Wrap(maxY - yOriented - 1);
        }
        info.x := Wrap(xOriented * width) / maxX;
        info.y := Wrap(yOriented * height) / maxY;
        info.detected := stat.touchDetected;
        var xDiff := if info.x > prevX then info.x - prevX else prevX - info.x;
        var yDiff := if info.y > prevY then info.y - prevY else prevY - info.y;
        if xDiff > accuracy || yDiff > accuracy {
          prevX := info.x;
          prevY := info.y;
        } else {
          info.x := prevX;
          info.y := prevY;
        }
      } else {
        info.detected := 0;
        info.x := prevX;
        info.y := prevY;
      }
      return Ok;
    }
  }
}
