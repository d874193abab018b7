/**
 * The accelerometer core of app/accelerometer.c: a per-tick handler that feeds
 * three median streams, waits until enough samples exist, freezes a reference
 * gravity vector exactly once (the center_g latch) and from then on tracks a
 * planar rotation angle with a one-sided wrap.
 *
 * The handler is specified by the pure function Tick over a Record value; the
 * class Tracker holds the static record and is proved to update it as Tick says.
 */
module Accelerometer {
  import opened Wrappers
  import opened Sdk

  /** A gravity reading in g (bc_lis2dh12_result_g_t). */
  datatype Vector = Vector(x: real, y: real, z: real)

  /** The contents of the static record, without the driver instance. */
  datatype Record = Record(
    xAxis: Stream,
    yAxis: Stream,
    zAxis: Stream,
    dice: seq<Triple>,     // the triples fed to the face classifier so far
    centerG: Vector,       // reference gravity vector
    centerGValid: bool,    // the calibration latch
    angle: real)           // last angle, in degrees

  /**
   * What the driver delivers to the handler: an UPDATE event together with the
   * result of bc_lis2dh12_get_result_g (None when that read fails), or any other
   * event kind.
   */
  datatype Event = Update(result: Option<Vector>) | OtherEvent

  /** The x-stream counter must exceed this before the reference is frozen. */
  const Threshold: nat := 20

  /** The value of pi written in the degree conversion. */
  const Pi: real := 3.14159265358979323846264338327950288

  /** The record after accelerometer_init: zeroed, with three empty streams. */
  function Initial(): (s: Record)
    ensures !s.centerGValid && s.angle == 0.0 && s.centerG == Vector(0.0, 0.0, 0.0)
    ensures s.xAxis.counter == 0 && s.yAxis.counter == 0 && s.zAxis.counter == 0
    ensures s.xAxis == EmptyStream() && s.yAxis == EmptyStream() && s.zAxis == EmptyStream()
    ensures s.dice == []
  {
    Record(EmptyStream(), EmptyStream(), EmptyStream(), [], Vector(0.0, 0.0, 0.0), false, 0.0)
  }

  /** True when the successful driver read g is what ev carries. */
  predicate IsReading(ev: Event)
  {
    ev.Update? && ev.result.Some?
  }

  /** The three medians a tick reads from the streams (after feeding). */
  function Medians(s: Record, lib: Library): Triple
  {
    Triple(lib.median(s.xAxis.samples), lib.median(s.yAxis.samples), lib.median(s.zAxis.samples))
  }

  /**
   * The one-sided wrap: angles below -90 degrees are moved up by 180, all
   * others pass through. It is not symmetric: nothing folds large angles down.
   */
  function Wrap(a: real): (r: real)
    ensures (r == a) <==> (a >= -90.0)
    ensures r != a ==> r == 180.0 + a
    ensures a > -270.0 ==> r >= -90.0
    ensures -180.0 <= a <= 180.0 ==> -90.0 <= r <= 180.0
  {
    if a < -90.0 then 180.0 + a else a
  }

  /** True when atan lies in its mathematical range [-pi/2, pi/2] at (y, x). */
  predicate AtanInRange(lib: Library, y: real, x: real)
  {
    -Pi / 2.0 <= lib.atanOfQuotient(y, x) <= Pi / 2.0
  }

  /**
   * The angle between the live reading and the reference, in degrees, before
   * the wrap: atan(g.y / g.x) - atan(center.y / center.x), scaled by 180 / pi.
   */
  function AngleDegrees(g: Vector, center: Vector, lib: Library): (r: real)
    ensures AtanInRange(lib, g.y, g.x) && AtanInRange(lib, center.y, center.x) ==>
              -180.0 <= r <= 180.0
    ensures lib.atanOfQuotient(g.y, g.x) == lib.atanOfQuotient(center.y, center.x) ==> r == 0.0
  {
    var d := lib.atanOfQuotient(g.y, g.x) - lib.atanOfQuotient(center.y, center.x);
    ScaleToDegrees(d);
    d * (180.0 / Pi)
  }

  /** Scaling a radian difference in [-pi, pi] by 180 / pi gives degrees in [-180, 180]. */
  lemma ScaleToDegrees(d: real)
    ensures -Pi <= d <= Pi ==> -180.0 <= d * (180.0 / Pi) <= 180.0
  {
    var k := 180.0 / Pi;
    assert k * Pi == 180.0;
    if -Pi <= d <= Pi {
      assert d * k <= Pi * k;
      assert -Pi * k <= d * k;
    }
  }

  /**
   * The calibration attempt: the three medians are read into center_g in turn,
   * stopping at the first failure (the short-circuit ||), and the latch is set
   * only when all three succeed.
   */
  function Lock(s: Record, lib: Library): (r: Record)
    ensures r.xAxis == s.xAxis && r.yAxis == s.yAxis && r.zAxis == s.zAxis
    ensures r.dice == s.dice && r.angle == s.angle
    ensures r.centerGValid <==> s.centerGValid || Medians(s, lib) == Triple(
              Some(r.centerG.x), Some(r.centerG.y), Some(r.centerG.z))
    ensures Medians(s, lib).x.Some? && Medians(s, lib).y.Some? && Medians(s, lib).z.Some? ==>
              r.centerGValid &&
              r.centerG == Vector(Medians(s, lib).x.value, Medians(s, lib).y.value, Medians(s, lib).z.value)
    ensures Medians(s, lib).x.None? ==> r == s
    ensures Medians(s, lib).x.Some? && Medians(s, lib).y.None? ==>
              r == s.(centerG := s.centerG.(x := Medians(s, lib).x.value))
    ensures Medians(s, lib).x.Some? && Medians(s, lib).y.Some? && Medians(s, lib).z.None? ==>
              r == s.(centerG := s.centerG.(x := Medians(s, lib).x.value, y := Medians(s, lib).y.value))
  {
    match lib.median(s.xAxis.samples)
    case None => s
    case Some(cx) =>
      match lib.median(s.yAxis.samples)
      case None => s.(centerG := s.centerG.(x := cx))
      case Some(cy) =>
        match lib.median(s.zAxis.samples)
        case None => s.(centerG := s.centerG.(x := cx, y := cy))
        case Some(cz) => s.(centerG := Vector(cx, cy, cz), centerGValid := true)
  }

  /** One invocation of the driver's event handler. */
  function Tick(s: Record, ev: Event, lib: Library): (r: Record)
    // a failed read or another event kind changes nothing
    ensures !IsReading(ev) ==> r == s
    // a successful read feeds each stream exactly once and the classifier once
    ensures IsReading(ev) ==>
              r.xAxis == Feed(s.xAxis, ev.result.value.x) &&
              r.yAxis == Feed(s.yAxis, ev.result.value.y) &&
              r.zAxis == Feed(s.zAxis, ev.result.value.z) &&
              r.dice == s.dice + [Medians(r, lib)]
    // the latch is never cleared and the reference never changes once set
    ensures s.centerGValid ==> r.centerGValid && r.centerG == s.centerG
    // no angle is computed before or on the locking tick
    ensures !s.centerGValid ==> r.angle == s.angle
    // the latch is set only past the threshold, from three successful medians
    ensures !s.centerGValid && r.centerGValid ==>
              r.xAxis.counter > Threshold &&
              Medians(r, lib) == Triple(Some(r.centerG.x), Some(r.centerG.y), Some(r.centerG.z))
    // at or below the threshold nothing but the streams and the classifier moves
    ensures !s.centerGValid && r.xAxis.counter <= Threshold ==>
              !r.centerGValid && r.centerG == s.centerG
    // past the threshold an unlocked tick is exactly the calibration attempt
    ensures IsReading(ev) && !s.centerGValid && r.xAxis.counter > Threshold ==>
              r == Lock(r.(centerG := s.centerG, centerGValid := false), lib)
    // past the threshold the latch is set as soon as the three medians are read
    ensures IsReading(ev) && !s.centerGValid && r.xAxis.counter > Threshold &&
            Medians(r, lib).x.Some? && Medians(r, lib).y.Some? && Medians(r, lib).z.Some? ==>
              r.centerGValid
    // once locked, every successful read sets the angle, within [-90, 180]
    ensures IsReading(ev) && s.centerGValid ==>
              r.angle == Wrap(AngleDegrees(ev.result.value, s.centerG, lib))
    ensures IsReading(ev) && s.centerGValid &&
            AtanInRange(lib, ev.result.value.y, ev.result.value.x) &&
            AtanInRange(lib, s.centerG.y, s.centerG.x) ==>
              -90.0 <= r.angle <= 180.0
  {
    match ev
    case OtherEvent => s
    case Update(None) => s
    case Update(Some(g)) =>
      var fed := s.(xAxis := Feed(s.xAxis, g.x), yAxis := Feed(s.yAxis, g.y), zAxis := Feed(s.zAxis, g.z));
      var t := fed.(dice := s.dice + [Medians(fed, lib)]);
      if s.centerGValid then
        t.(angle := Wrap(AngleDegrees(g, s.centerG, lib)))
      else if t.xAxis.counter > Threshold then
        Lock(t, lib)
      else
        t
  }

  /** The record after the handler has run on each event in turn. */
  function Run(s: Record, evs: seq<Event>, lib: Library): Record
    decreases |evs|
  {
    if evs == [] then s else Run(Tick(s, evs[0], lib), evs[1..], lib)
  }

  /** The driver samples among the events, in order: what the streams are fed. */
  function Readings(evs: seq<Event>): seq<Vector>
  {
    if evs == [] then []
    else (if IsReading(evs[0]) then [evs[0].result.value] else []) + Readings(evs[1..])
  }

  /** The number of ticks of a run on which the latch goes from unset to set. */
  function LockCount(s: Record, evs: seq<Event>, lib: Library): nat
    decreases |evs|
  {
    if evs == [] then 0
    else
      var t := Tick(s, evs[0], lib);
      (if !s.centerGValid && t.centerGValid then 1 else 0) + LockCount(t, evs[1..], lib)
  }

  datatype Axis = X | Y | Z

  function Coord(v: Vector, a: Axis): real
  {
    match a
    case X => v.x
    case Y => v.y
    case Z => v.z
  }

  function StreamOf(s: Record, a: Axis): Stream
  {
    match a
    case X => s.xAxis
    case Y => s.yAxis
    case Z => s.zAxis
  }

  /** One axis of a sequence of readings. */
  function Coords(rs: seq<Vector>, a: Axis): seq<real>
  {
    if rs == [] then [] else [Coord(rs[0], a)] + Coords(rs[1..], a)
  }

  /** Running a concatenation is running the parts one after the other. */
  lemma {:induction false} RunSplit(s: Record, evs: seq<Event>, i: nat, lib: Library)
    requires i <= |evs|
    ensures Run(s, evs, lib) == Run(Run(s, evs[..i], lib), evs[i..], lib)
    decreases i
  {
    if i > 0 {
      assert evs[..i][0] == evs[0];
      assert evs[..i][1..] == evs[1..][..i - 1];
      assert evs[i..] == evs[1..][i - 1..];
      RunSplit(Tick(s, evs[0], lib), evs[1..], i - 1, lib);
    }
  }

  /** Once set, the latch stays set and the reference vector stays as it was. */
  lemma {:induction false} LatchHolds(s: Record, evs: seq<Event>, lib: Library)
    requires s.centerGValid
    ensures Run(s, evs, lib).centerGValid
    ensures Run(s, evs, lib).centerG == s.centerG
    decreases |evs|
  {
    if evs != [] {
      LatchHolds(Tick(s, evs[0], lib), evs[1..], lib);
    }
  }

  /** Along any run, a later state is locked whenever an earlier one is. */
  lemma LatchMonotone(s: Record, evs: seq<Event>, i: nat, j: nat, lib: Library)
    requires i <= j <= |evs|
    requires Run(s, evs[..i], lib).centerGValid
    ensures Run(s, evs[..j], lib).centerGValid
    ensures Run(s, evs[..j], lib).centerG == Run(s, evs[..i], lib).centerG
  {
    RunSplit(s, evs[..j], i, lib);
    assert evs[..j][..i] == evs[..i];
    LatchHolds(Run(s, evs[..i], lib), evs[..j][i..], lib);
  }

  /** The latch is set at most once: exactly once if the run ends locked having started unlocked. */
  lemma {:induction false} LocksAtMostOnce(s: Record, evs: seq<Event>, lib: Library)
    ensures LockCount(s, evs, lib) == if !s.centerGValid && Run(s, evs, lib).centerGValid then 1 else 0
    decreases |evs|
  {
    if evs != [] {
      var t := Tick(s, evs[0], lib);
      LocksAtMostOnce(t, evs[1..], lib);
      if t.centerGValid {
        LatchHolds(t, evs[1..], lib);
        ZeroLocksWhenLocked(t, evs[1..], lib);
      }
    }
  }

  /** A run that starts locked never locks again. */
  lemma {:induction false} ZeroLocksWhenLocked(s: Record, evs: seq<Event>, lib: Library)
    requires s.centerGValid
    ensures LockCount(s, evs, lib) == 0
    decreases |evs|
  {
    if evs != [] {
      ZeroLocksWhenLocked(Tick(s, evs[0], lib), evs[1..], lib);
    }
  }

  /** One tick feeds a stream its component of the reading, or leaves it alone. */
  lemma TickFeeds(s: Record, ev: Event, a: Axis, lib: Library)
    ensures StreamOf(Tick(s, ev, lib), a) ==
              if IsReading(ev) then Feed(StreamOf(s, a), Coord(ev.result.value, a)) else StreamOf(s, a)
  {
  }

  /** The readings of a run are its first event's reading, if any, then the rest's. */
  lemma ReadingsCons(evs: seq<Event>)
    requires evs != []
    ensures Readings(evs) ==
              (if IsReading(evs[0]) then [evs[0].result.value] else []) + Readings(evs[1..])
  {
  }

  /** One axis of a reading followed by more readings. */
  lemma CoordsCons(g: Vector, rest: seq<Vector>, a: Axis)
    ensures Coords([g] + rest, a) == [Coord(g, a)] + Coords(rest, a)
  {
    assert ([g] + rest)[1..] == rest;
  }

  /** Every stream receives, in order, exactly the successful driver readings. */
  lemma {:induction false} FeedsEveryStream(s: Record, evs: seq<Event>, a: Axis, lib: Library)
    ensures StreamOf(Run(s, evs, lib), a) ==
              Stream(StreamOf(s, a).counter + |Readings(evs)|,
                     StreamOf(s, a).samples + Coords(Readings(evs), a))
    decreases |evs|
  {
    if evs != [] {
      var t := Tick(s, evs[0], lib);
      assert Run(s, evs, lib) == Run(t, evs[1..], lib);
      FeedsEveryStream(t, evs[1..], a, lib);
      TickFeeds(s, evs[0], a, lib);
      ReadingsCons(evs);
      var rest := Readings(evs[1..]);
      var before := StreamOf(s, a);
      if IsReading(evs[0]) {
        var g := evs[0].result.value;
        CoordsCons(g, rest, a);
        assert before.samples + ([Coord(g, a)] + Coords(rest, a)) ==
               (before.samples + [Coord(g, a)]) + Coords(rest, a);
      } else {
        assert [] + rest == rest;
      }
    }
  }

  /**
   * The latch can only be set once the x stream has been fed more than
   * Threshold times in all.
   */
  lemma {:induction false} LockNeedsThreshold(s: Record, evs: seq<Event>, lib: Library)
    requires !s.centerGValid
    requires Run(s, evs, lib).centerGValid
    ensures s.xAxis.counter + |Readings(evs)| > Threshold
    decreases |evs|
  {
    var t := Tick(s, evs[0], lib);
    if !t.centerGValid {
      LockNeedsThreshold(t, evs[1..], lib);
    }
    FeedsEveryStream(s, [evs[0]], X, lib);
    assert [evs[0]] + evs[1..] == evs;
    ReadingsAppend([evs[0]], evs[1..]);
    assert Run(s, [evs[0]], lib) == t;
  }

  /** The readings of a concatenation are the readings of the parts. */
  lemma {:induction false} ReadingsAppend(a: seq<Event>, b: seq<Event>)
    ensures Readings(a + b) == Readings(a) + Readings(b)
    decreases |a|
  {
    if a != [] {
      assert (a + b)[0] == a[0];
      assert (a + b)[1..] == a[1..] + b;
      ReadingsAppend(a[1..], b);
      var head := if IsReading(a[0]) then [a[0].result.value] else [];
      assert Readings(a + b) == head + Readings(a[1..] + b);
      assert Readings(a) == head + Readings(a[1..]);
    } else {
      assert a + b == b;
    }
  }

  /**
   * While the latch is unset the angle is never written, so from the initial
   * record it stays 0 until the first tick after locking.
   */
  lemma {:induction false} AngleUntouchedWhileCalibrating(s: Record, evs: seq<Event>, lib: Library)
    requires !Run(s, evs, lib).centerGValid
    ensures !s.centerGValid
    ensures Run(s, evs, lib).angle == s.angle
    decreases |evs|
  {
    if evs != [] {
      var t := Tick(s, evs[0], lib);
      AngleUntouchedWhileCalibrating(t, evs[1..], lib);
    } 
  }

  /**
   * From the initial record, no run with at most Threshold successful readings
   * locks, writes center_g or moves the angle off 0.
   */
  lemma NoLockUpToThreshold(evs: seq<Event>, lib: Library)
    requires |Readings(evs)| <= Threshold
    ensures !Run(Initial(), evs, lib).centerGValid
    ensures Run(Initial(), evs, lib).angle == 0.0
    ensures Run(Initial(), evs, lib).centerG == Vector(0.0, 0.0, 0.0)
  {
    if Run(Initial(), evs, lib).centerGValid {
      LockNeedsThreshold(Initial(), evs, lib);
    }
    AngleUntouchedWhileCalibrating(Initial(), evs, lib);
    CenterUntouchedBelowThreshold(Initial(), evs, lib);
  }

  /** Below the threshold the reference vector is not written, not even in part. */
  lemma {:induction false} CenterUntouchedBelowThreshold(s: Record, evs: seq<Event>, lib: Library)
    requires !s.centerGValid
    requires s.xAxis.counter + |Readings(evs)| <= Threshold
    ensures Run(s, evs, lib).centerG == s.centerG
    ensures !Run(s, evs, lib).centerGValid
    decreases |evs|
  {
    if evs != [] {
      var t := Tick(s, evs[0], lib);
      FeedsEveryStream(s, [evs[0]], X, lib);
      assert [evs[0]] + evs[1..] == evs;
      ReadingsAppend([evs[0]], evs[1..]);
      assert Run(s, [evs[0]], lib) == t;
      CenterUntouchedBelowThreshold(t, evs[1..], lib);
    }
  }

  /**
   * When atan stays in [-pi/2, pi/2], every angle the tracker stores lies in
   * [-90, 180]: the wrap folds [-180, -90) up but leaves (90, 180] alone.
   */
  lemma {:induction false} AngleBounded(s: Record, evs: seq<Event>, lib: Library)
    requires forall y: real, x: real :: AtanInRange(lib, y, x)
    requires -90.0 <= s.angle <= 180.0
    ensures -90.0 <= Run(s, evs, lib).angle <= 180.0
    decreases |evs|
  {
    if evs != [] {
      var t := Tick(s, evs[0], lib);
      if IsReading(evs[0]) {
        assert AtanInRange(lib, evs[0].result.value.y, evs[0].result.value.x);
        assert AtanInRange(lib, s.centerG.y, s.centerG.x);
      }
      AngleBounded(t, evs[1..], lib);
    }
  }

  /** The face accelerometer_get_position reports: Unknown until the classifier is fed. */
  function Position(s: Record, lib: Library): (f: Face)
    ensures s.dice == [] ==> f == Unknown
  {
    if s.dice == [] then Unknown else lib.classify(s.dice)
  }

  /** The static record of app/accelerometer.c, with the library it is linked to. */
  class Tracker {
    const lib: Library
    var xAxis: Stream
    var yAxis: Stream
    var zAxis: Stream
    var dice: seq<Triple>
    var centerG: Vector
    var centerGValid: bool
    var angle: real

    /** The abstract value of the record. */
    function State(): Record
      reads this
    {
      Record(xAxis, yAxis, zAxis, dice, centerG, centerGValid, angle)
    }

    /** Zero-initialised static storage, linked to lib. */
    constructor (lib: Library)
      ensures this.lib == lib
      ensures State() == Initial()
    {
      this.lib := lib;
      xAxis, yAxis, zAxis := EmptyStream(), EmptyStream(), EmptyStream();
      dice := [];
      centerG := Vector(0.0, 0.0, 0.0);
      centerGValid := false;
      angle := 0.0;
    }

    /** accelerometer_init: the record is cleared, the streams and the classifier restarted. */
    method Init()
      modifies this
      ensures State() == Initial()
    {
      xAxis, yAxis, zAxis := EmptyStream(), EmptyStream(), EmptyStream();
      dice := [];
      centerG := Vector(0.0, 0.0, 0.0);
      centerGValid := false;
      angle := 0.0;
    }

    /** _accelerometer_lis2dh12_event_handler. */
    method HandleEvent(ev: Event)
      modifies this
      ensures State() == Tick(old(State()), ev, lib)
    {
      if !ev.Update? {
        return;
      }
      if ev.result.None? {
        return;
      }
      var g := ev.result.value;

      xAxis := Feed(xAxis, g.x);
      yAxis := Feed(yAxis, g.y);
      zAxis := Feed(zAxis, g.z);

      var mx := lib.median(xAxis.samples);
      var my := lib.median(yAxis.samples);
      var mz := lib.median(zAxis.samples);
      dice := dice + [Triple(mx, my, mz)];

      if centerGValid {
        var a := AngleDegrees(g, centerG, lib);
        if a < -90.0 {
          a := 180.0 + a;
        }
        angle := a;
      } else if xAxis.counter > Threshold {
        var cx := lib.median(xAxis.samples);
        if cx.None? {
          return;
        }
        centerG := centerG.(x := cx.value);
        var cy := lib.median(yAxis.samples);
        if cy.None? {
          return;
        }
        centerG := centerG.(y := cy.value);
        var cz := lib.median(zAxis.samples);
        if cz.None? {
          return;
        }
        centerG := centerG.(z := cz.value);
        centerGValid := true;
      }
    }

    /** accelerometer_get_angle. */
    method GetAngle() returns (a: real)
      ensures a == State().angle
    {
      a := angle;
    }

    /** accelerometer_get_position. */
    method GetPosition() returns (f: Face)
      ensures f == Position(State(), lib)
    {
      f := if dice == [] then Unknown else lib.classify(dice);
    }
  }
}
