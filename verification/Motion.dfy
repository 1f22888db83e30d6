/**
  ios/Sources/Models/Motion.swift: from the phone's azimuth and elevation to cursor
  motion. Angles are real numbers and pi is any positive real.
*/
module Motion {
  // ---- Arithmetic ----

  function Min(a: real, b: real): real { if a <= b then a else b }

  function Max(a: real, b: real): real { if a >= b then a else b }

  function Abs(a: real): real { if a < 0.0 then -a else a }

  function Clamp(v: real, lo: real, hi: real): real { Min(Max(v, lo), hi) }

  /** Rounding to the nearest integer, halves away from zero. */
  function Rounded(x: real): int {
    if x >= 0.0 then (x + 0.5).Floor else -((0.5 - x).Floor)
  }

  lemma RoundedIsNear(x: real)
    ensures Abs(Rounded(x) as real - x) <= 0.5
    ensures x >= 0.0 ==> Rounded(x) as real - x > -0.5
    ensures x <= 0.0 ==> Rounded(x) as real - x < 0.5
  {
  }

  /** One turn at most: enough for the difference of two angles in [-pi, pi]. */
  function Wrap(d: real, pi: real): real {
    if d > pi then d - 2.0 * pi else if d < -pi then d + 2.0 * pi else d
  }

  predicate IsAngle(a: real, pi: real) { -pi <= a <= pi }

  /** How many whole turns lie between a and [-pi, pi]. */
  function Excess(a: real, pi: real): int
    requires pi > 0.0
  {
    if a > pi then ((a - pi) / (2.0 * pi)).Floor + 1
    else if a < -pi then ((-pi - a) / (2.0 * pi)).Floor + 1
    else 0
  }

  lemma Scale(a: real, b: real, c: real)
    requires c > 0.0
    ensures (a < b ==> a * c < b * c) && (a <= b ==> a * c <= b * c)
  {
    assert b * c - a * c == (b - a) * c;
  }

  lemma Cancel(a: real, b: real, c: real)
    requires c > 0.0 && a * c == b * c
    ensures a == b
  {
    Scale(a, b, c);
    Scale(b, a, c);
  }

  lemma OneTurnLess(x: real, turn: real)
    requires turn > 0.0
    ensures (x - turn) / turn == x / turn - 1.0
    ensures x > 0.0 ==> x / turn > 0.0
  {
    var q, r := x / turn, (x - turn) / turn;
    assert q * turn == x && r * turn == x - turn;
    assert (q - 1.0) * turn == q * turn - turn;
    Cancel(r, q - 1.0, turn);
    Scale(q, 0.0, turn);
  }

  lemma ExcessShrinks(a: real, pi: real)
    requires pi > 0.0
    ensures a > pi ==> 0 <= Excess(a - 2.0 * pi, pi) < Excess(a, pi) && a - 2.0 * pi > -pi
    ensures a < -pi ==> 0 <= Excess(a + 2.0 * pi, pi) < Excess(a, pi) && a + 2.0 * pi < pi
  {
    OneTurnLess(a - pi, 2.0 * pi);
    OneTurnLess(-pi - a, 2.0 * pi);
    if a > pi {
      assert a - 2.0 * pi - pi == a - pi - 2.0 * pi;
      if a - 2.0 * pi > pi { OneTurnLess(a - 2.0 * pi - pi, 2.0 * pi); }
    } else if a < -pi {
      assert -pi - (a + 2.0 * pi) == -pi - a - 2.0 * pi;
      if a + 2.0 * pi < -pi { OneTurnLess(-pi - (a + 2.0 * pi), 2.0 * pi); }
    }
  }

  /** Whole turns taken off until the angle is in range. */
  function Normalize(a: real, pi: real): real
    requires pi > 0.0
    decreases Excess(a, pi)
  {
    ExcessShrinks(a, pi);
    if a > pi then Normalize(a - 2.0 * pi, pi)
    else if a < -pi then Normalize(a + 2.0 * pi, pi)
    else a
  }

  method NormalizeAngle(a: real, pi: real) returns (x: real)
    requires pi > 0.0
    ensures x == Normalize(a, pi)
  {
    x := a;
    while x > pi
      invariant Normalize(x, pi) == Normalize(a, pi)
      decreases Excess(x, pi)
    {
      ExcessShrinks(x, pi);
      x := x - 2.0 * pi;
    }
    while x < -pi
      invariant x <= pi
      invariant Normalize(x, pi) == Normalize(a, pi)
      decreases Excess(x, pi)
    {
      ExcessShrinks(x, pi);
      x := x + 2.0 * pi;
    }
  }

  /** a is b plus k turns. */
  predicate Turned(a: real, b: real, k: int, pi: real) {
    a == b + k as real * (2.0 * pi)
  }

  lemma TurnedTwice(a: real, b: real, c: real, j: int, k: int, pi: real)
    requires Turned(a, b, j, pi) && Turned(b, c, k, pi)
    ensures Turned(a, c, j + k, pi) && Turned(b, a, -j, pi)
  {
    assert (j + k) as real * (2.0 * pi) == j as real * (2.0 * pi) + k as real * (2.0 * pi);
    assert (-j) as real * (2.0 * pi) == -(j as real * (2.0 * pi));
  }

  lemma {:induction false} NormalizeTurns(a: real, pi: real) returns (k: int)
    requires pi > 0.0
    ensures IsAngle(Normalize(a, pi), pi) && Turned(a, Normalize(a, pi), k, pi)
    ensures (IsAngle(a, pi) ==> Normalize(a, pi) == a) && (a > pi ==> Normalize(a, pi) > -pi) && (a < -pi ==> Normalize(a, pi) < pi)
    decreases Excess(a, pi)
  {
    ExcessShrinks(a, pi);
    if a > pi {
      var j := NormalizeTurns(a - 2.0 * pi, pi);
      assert Turned(a, a - 2.0 * pi, 1, pi);
      TurnedTwice(a, a - 2.0 * pi, Normalize(a, pi), 1, j, pi);
      k := 1 + j;
    } else if a < -pi {
      var j := NormalizeTurns(a + 2.0 * pi, pi);
      assert Turned(a, a + 2.0 * pi, -1, pi);
      TurnedTwice(a, a + 2.0 * pi, Normalize(a, pi), -1, j, pi);
      k := -1 + j;
    } else {
      k := 0;
    }
  }

  // ---- Calibration ----

  datatype Sample = Sample(az: real, el: real)

  /** The extremes of a sweep, as offsets from its first sample. */
  datatype Capture = Capture(seeded: bool, refAz: real, refEl: real, minAz: real, maxAz: real, minEl: real, maxEl: real)

  datatype Calibration = Calibration(neutralAz: real, neutralEl: real, halfAz: real, halfEl: real)

  function MinHalfRange(pi: real): real { 8.0 * pi / 180.0 }

  function Captured(c: Capture, s: Sample, pi: real): Capture {
    var d := if c.seeded then c else c.(seeded := true, refAz := s.az, refEl := s.el);
    var az, el := Wrap(s.az - d.refAz, pi), s.el - d.refEl;
    d.(minAz := Min(d.minAz, az), maxAz := Max(d.maxAz, az), minEl := Min(d.minEl, el), maxEl := Max(d.maxEl, el))
  }

  function Begun(c: Capture): Capture {
    c.(seeded := false, minAz := 0.0, maxAz := 0.0, minEl := 0.0, maxEl := 0.0)
  }

  /** A calibration wave from its start. */
  function Sweep(c: Capture, ss: seq<Sample>, pi: real): Capture
    decreases |ss|
  {
    if ss == [] then Begun(c) else Captured(Sweep(c, ss[..|ss| - 1], pi), ss[|ss| - 1], pi)
  }

  /** The screen's aspect decides, or the captured sweep if the screen is not known. */
  function VerticalRange(c: Capture, haz: real, screenW: int, screenH: int): real {
    if screenW > 0 && screenH > 0 then haz * screenH as real / screenW as real else (c.maxEl - c.minEl) / 2.0
  }

  function Calibrated(c: Capture, screenW: int, screenH: int, pi: real): Calibration
    requires pi > 0.0
  {
    var haz := Max((c.maxAz - c.minAz) / 2.0, MinHalfRange(pi));
    Calibration(
      Normalize(c.refAz + (c.maxAz + c.minAz) / 2.0, pi), c.refEl + (c.maxEl + c.minEl) / 2.0, haz,
      Max(VerticalRange(c, haz, screenW, screenH), MinHalfRange(pi)))
  }

  lemma CalibrationIsSane(c: Capture, screenW: int, screenH: int, pi: real)
    requires pi > 0.0
    ensures var k := Calibrated(c, screenW, screenH, pi); k.halfAz > 0.0 && k.halfEl > 0.0 && IsAngle(k.neutralAz, pi)
  {
    var _ := NormalizeTurns(c.refAz + (c.maxAz + c.minAz) / 2.0, pi);
  }

  // ---- Absolute mode ----

  datatype Absolute = Absolute(seeded: bool, sx: real, sy: real)

  /** One coordinate of the pose in [0, 1]: the neutral is the middle. */
  function Fraction(offset: real, half: real): real
    requires half != 0.0
  {
    0.5 + 0.5 * Clamp(offset / half, -1.0, 1.0)
  }

  function Halfway(ema: real, target: real): real { 0.5 * target + (1.0 - 0.5) * ema }

  function Coordinate(ema: real): int { Rounded(Clamp(ema, 0.0, 1.0) * 65535.0) }

  function Pointed(a: Absolute, k: Calibration, s: Sample, pi: real): Absolute
    requires k.halfAz != 0.0 && k.halfEl != 0.0
  {
    var sx := Fraction(Wrap(s.az - k.neutralAz, pi), k.halfAz);
    var sy := Fraction(s.el - k.neutralEl, k.halfEl);
    var b := if a.seeded then a else Absolute(true, sx, sy);
    Absolute(true, Halfway(b.sx, sx), Halfway(b.sy, sy))
  }

  /** The smoothed pose has not left the unit square. */
  predicate OnScreen(a: Absolute) {
    a.seeded ==> 0.0 <= a.sx <= 1.0 && 0.0 <= a.sy <= 1.0
  }

  lemma CoordinateInRange(ema: real)
    requires 0.0 <= ema <= 1.0
    ensures 0 <= Coordinate(ema) <= 65535
  {
  }

  // ---- Relative mode ----

  datatype Relative = Relative(hasPrev: bool, prevAz: real, prevEl: real, emaDX: real, emaDY: real)

  const SENSITIVITY: real := 1100.0
  const DEAD_ZONE: real := 0.0009
  const SMOOTHING: real := 0.35

  function Smoothed(ema: real, raw: real): real { SMOOTHING * raw + (1.0 - SMOOTHING) * ema }

  function Pixels(d: real): real { (if Abs(d) < DEAD_ZONE then 0.0 else d) * SENSITIVITY }

  function Swept(r: Relative, s: Sample, pi: real): Relative {
    if !r.hasPrev then r.(hasPrev := true, prevAz := s.az, prevEl := s.el)
    else Relative(true, s.az, s.el,
                  Smoothed(r.emaDX, Pixels(Wrap(s.az - r.prevAz, pi))), Smoothed(r.emaDY, Pixels(s.el - r.prevEl)))
  }

  // ---- The controller ----

  datatype Mode = RelativeMode | AbsoluteMode

  class MotionController {
    const pi: real
    var mode: Mode
    var paused: bool
    var capturing: bool
    var capture: Capture
    var calibration: Calibration
    var relative: Relative
    var absolute: Absolute
    var moves: seq<(int, int)>      // what onMove has delivered
    var positions: seq<(int, int)>  // what onMoveAbs has delivered

    ghost predicate Valid()
      reads this
    {
      && pi > 0.0 && calibration.halfAz > 0.0 && calibration.halfEl > 0.0 && IsAngle(calibration.neutralAz, pi)
      && OnScreen(absolute)
      && forall i :: 0 <= i < |positions| ==> 0 <= positions[i].0 <= 65535 && 0 <= positions[i].1 <= 65535
    }

    constructor (pi: real)
      requires pi > 0.0
      ensures Valid() && this.pi == pi && mode == RelativeMode && !paused && !capturing
      ensures !relative.hasPrev && !absolute.seeded && moves == [] && positions == []
      ensures calibration == Calibration(0.0, 0.0, 30.0 * pi / 180.0, 20.0 * pi / 180.0)
    {
      this.pi := pi;
      mode, paused, capturing := RelativeMode, false, false;
      capture := Capture(false, 0.0, 0.0, 0.0, 0.0, 0.0, 0.0);
      calibration := Calibration(0.0, 0.0, 30.0 * pi / 180.0, 20.0 * pi / 180.0);
      relative := Relative(false, 0.0, 0.0, 0.0, 0.0);
      absolute := Absolute(false, 0.0, 0.0);
      moves, positions := [], [];
    }

    method SetPaused(p: bool)
      modifies `paused, `relative
      ensures paused == p && relative == if p then old(relative) else old(relative).(hasPrev := false)
    {
      paused := p;
      if !p {
        relative := relative.(hasPrev := false);
      }
    }

    method SetMode(m: Mode)
      requires Valid()
      modifies `mode, `relative, `absolute
      ensures Valid() && mode == m
      ensures relative == old(relative).(hasPrev := false) && absolute == old(absolute).(seeded := false)
    {
      relative := relative.(hasPrev := false);
      absolute := absolute.(seeded := false);
      mode := m;
    }

    method BeginCalibration()
      modifies `capturing, `capture
      ensures capturing && capture == Begun(old(capture))
    {
      capturing := true;
      capture := capture.(seeded := false);
      capture := capture.(minAz := 0.0, maxAz := 0.0);
      capture := capture.(minEl := 0.0, maxEl := 0.0);
    }

    method FinishCalibration(screenW: int, screenH: int)
      requires Valid()
      modifies `capturing, `calibration, `absolute, `mode
      ensures Valid() && !capturing && mode == AbsoluteMode
      ensures calibration == Calibrated(capture, screenW, screenH, pi)
      ensures absolute == old(absolute).(seeded := false)
    {
      hide Normalize, VerticalRange, IsAngle;
      capturing := false;
      var haz := Max((capture.maxAz - capture.minAz) / 2.0, MinHalfRange(pi));
      var neutralAz := NormalizeAngle(capture.refAz + (capture.maxAz + capture.minAz) / 2.0, pi);
      var neutralEl := capture.refEl + (capture.maxEl + capture.minEl) / 2.0;
      var hel := Max(VerticalRange(capture, haz, screenW, screenH), MinHalfRange(pi));
      calibration := Calibration(neutralAz, neutralEl, haz, hel);
      CalibrationIsSane(capture, screenW, screenH, pi);
      absolute := absolute.(seeded := false);
      mode := AbsoluteMode;
    }

    method EmitRelative(s: Sample)
      modifies `relative, `moves
      ensures relative == Swept(old(relative), s, pi)
      ensures moves == if !old(relative).hasPrev || (Rounded(relative.emaDX) == 0 && Rounded(relative.emaDY) == 0)
                       then old(moves) else old(moves) + [(Rounded(relative.emaDX), Rounded(relative.emaDY))]
    {
      if !relative.hasPrev {
        relative := relative.(hasPrev := true, prevAz := s.az, prevEl := s.el);
        return;
      }
      var dAz := Wrap(s.az - relative.prevAz, pi);
      var dEl := s.el - relative.prevEl;
      relative := Relative(true, s.az, s.el, Smoothed(relative.emaDX, Pixels(dAz)), Smoothed(relative.emaDY, Pixels(dEl)));
      var dx, dy := Rounded(relative.emaDX), Rounded(relative.emaDY);
      if dx != 0 || dy != 0 {
        moves := moves + [(dx, dy)];
      }
    }

    method EmitAbsolute(s: Sample)
      requires Valid()
      modifies `absolute, `positions
      ensures Valid()
      ensures absolute == Pointed(old(absolute), calibration, s, pi)
      ensures positions == old(positions) + [(Coordinate(absolute.sx), Coordinate(absolute.sy))]
    {
      hide Coordinate, Fraction, Wrap, Halfway;
      var sx := Fraction(Wrap(s.az - calibration.neutralAz, pi), calibration.halfAz);
      var sy := Fraction(s.el - calibration.neutralEl, calibration.halfEl);
      if !absolute.seeded {
        absolute := Absolute(true, sx, sy);
      }
      absolute := Absolute(true, Halfway(absolute.sx, sx), Halfway(absolute.sy, sy));
      PointedStaysInside(old(absolute), calibration, s, pi);
      CoordinateInRange(absolute.sx);
      CoordinateInRange(absolute.sy);
      positions := positions + [(Coordinate(absolute.sx), Coordinate(absolute.sy))];
    }

    /** One sensor reading: captured, swallowed while paused, or turned into motion. */
    method Handle(s: Sample)
      requires Valid()
      modifies `capture, `relative, `absolute, `moves, `positions
      ensures Valid()
      ensures capture == if capturing then Captured(old(capture), s, pi) else old(capture)
      ensures relative == if capturing then old(relative)
                          else if paused then old(relative).(prevAz := s.az, prevEl := s.el)
                          else if mode == RelativeMode then Swept(old(relative), s, pi) else old(relative)
      ensures absolute == if capturing || paused || mode == RelativeMode then old(absolute)
                          else Pointed(old(absolute), calibration, s, pi)
      ensures moves == if capturing || paused || mode == AbsoluteMode || !old(relative).hasPrev
                          || (Rounded(relative.emaDX) == 0 && Rounded(relative.emaDY) == 0)
                       then old(moves) else old(moves) + [(Rounded(relative.emaDX), Rounded(relative.emaDY))]
      ensures positions == if capturing || paused || mode == RelativeMode then old(positions)
                           else old(positions) + [(Coordinate(absolute.sx), Coordinate(absolute.sy))]
    {
      hide Coordinate, Rounded, Pointed, Swept, Captured;
      if capturing {
        capture := Captured(capture, s, pi);
      } else if paused {
        relative := relative.(prevAz := s.az, prevEl := s.el);
      } else if mode == RelativeMode {
        EmitRelative(s);
      } else {
        EmitAbsolute(s);
      }
    }

    /** A run of readings in relative mode: the moves delivered add up as Delivered says. */
    method HandleAll(ss: seq<Sample>)
      requires Valid() && !capturing && !paused && mode == RelativeMode
      modifies `capture, `relative, `absolute, `moves, `positions
      ensures Valid()
      ensures var (end, x, y) := Delivered(old(relative), ss, pi);
              relative == end && Total(moves) == (Total(old(moves)).0 + x, Total(old(moves)).1 + y)
    {
      hide Swept, Rounded, Total;
      for k := 0 to |ss|
        invariant Valid()
        invariant var d, all := Delivered(relative, ss[k..], pi), Delivered(old(relative), ss, pi);
                  && d.0 == all.0 && Total(moves).0 + d.1 == Total(old(moves)).0 + all.1
                  && Total(moves).1 + d.2 == Total(old(moves)).1 + all.2
      {
        assert ss[k..][0] == ss[k] && ss[k..][1..] == ss[k + 1..];
        ghost var before := moves;
        Handle(ss[k]);
        TotalMore(before, (Rounded(relative.emaDX), Rounded(relative.emaDY)));
      }
    }
  }

  function Total(moves: seq<(int, int)>): (int, int)
    decreases |moves|
  {
    if moves == [] then (0, 0)
    else var t, m := Total(moves[..|moves| - 1]), moves[|moves| - 1]; (t.0 + m.0, t.1 + m.1)
  }

  lemma TotalMore(moves: seq<(int, int)>, m: (int, int))
    ensures Total(moves + [m]) == (Total(moves).0 + m.0, Total(moves).1 + m.1)
  {
    assert (moves + [m])[..|moves|] == moves;
  }

  // ---- The sweep fills the screen ----

  /** v is the azimuth offset of some sample. */
  ghost predicate Reached(v: real, ss: seq<Sample>, ref: real, pi: real) {
    exists i :: 0 <= i < |ss| && Wrap(ss[i].az - ref, pi) == v
  }

  lemma ReachedBefore(v: real, ss: seq<Sample>, n: nat, ref: real, pi: real)
    requires n <= |ss|
    ensures Reached(v, ss[..n], ref, pi) ==> Reached(v, ss, ref, pi)
  {
    if Reached(v, ss[..n], ref, pi) {
      var i :| 0 <= i < n && Wrap(ss[..n][i].az - ref, pi) == v;
      assert Wrap(ss[i].az - ref, pi) == v;
    }
  }

  /** What the capture knows: every sample's offset lies between the extremes, and each
      extreme is the offset of some sample. */
  lemma {:induction false} SweepBounds(c: Capture, ss: seq<Sample>, pi: real)
    requires pi > 0.0 && ss != []
    ensures var s := Sweep(c, ss, pi);
            && s.seeded && s.refAz == ss[0].az
            && (forall i :: 0 <= i < |ss| ==> s.minAz <= Wrap(ss[i].az - s.refAz, pi) <= s.maxAz)
            && Reached(s.minAz, ss, s.refAz, pi) && Reached(s.maxAz, ss, s.refAz, pi)
    decreases |ss|
  {
    hide Wrap, Captured;
    var n := |ss| - 1;
    var s := Sweep(c, ss, pi);
    if n == 0 {
      assert Sweep(c, ss[..0], pi) == Begun(c);
      FirstCaptured(Begun(c), ss[0], pi);
    } else {
      SweepBounds(c, ss[..n], pi);
      var before := Sweep(c, ss[..n], pi);
      MoreCaptured(before, ss[n], pi);
      ReachedBefore(before.minAz, ss, n, s.refAz, pi);
      ReachedBefore(before.maxAz, ss, n, s.refAz, pi);
      assert Reached(Wrap(ss[n].az - s.refAz, pi), ss, s.refAz, pi);
      forall i | 0 <= i < |ss| ensures s.minAz <= Wrap(ss[i].az - s.refAz, pi) <= s.maxAz {
        if i < n { assert ss[..n][i] == ss[i]; }
      }
    }
  }

  lemma FirstCaptured(c: Capture, s: Sample, pi: real)
    requires pi > 0.0 && !c.seeded && c.minAz == c.maxAz == 0.0
    ensures var d := Captured(c, s, pi);
            d.seeded && d.refAz == s.az && d.minAz == d.maxAz == 0.0 && Wrap(s.az - d.refAz, pi) == 0.0
  {
  }

  lemma MoreCaptured(c: Capture, s: Sample, pi: real)
    requires c.seeded
    ensures var d := Captured(c, s, pi); var az := Wrap(s.az - c.refAz, pi);
            && d.seeded && d.refAz == c.refAz
            && (d.minAz == c.minAz || d.minAz == az) && d.minAz <= c.minAz && d.minAz <= az
            && (d.maxAz == c.maxAz || d.maxAz == az) && d.maxAz >= c.maxAz && d.maxAz >= az
  {
  }

  /** Seen from the neutral, an azimuth is as far off as it was from the sweep's middle,
      on whichever side of the +-pi seam the two lie. */
  lemma OffsetFromNeutral(az: real, ref: real, mid: real, pi: real)
    requires pi > 0.0 && IsAngle(az, pi) && IsAngle(ref, pi)
    requires -pi < Wrap(az - ref, pi) - mid < pi
    ensures Wrap(az - Normalize(ref + mid, pi), pi) == Wrap(az - ref, pi) - mid
  {
  }

  /**
    The captured sweep fills the screen: after a sweep of at least twice the minimal range
    and less than a full turn, the first sample at an azimuth within the sweep is sent to
    the screen position that divides the screen as the azimuth divides the sweep, even if
    the sweep crosses the seam at +-pi.
  */
  lemma SweepFillsScreen(c: Capture, ss: seq<Sample>, s: Sample, screenW: int, screenH: int, pi: real)
    requires pi > 0.0 && ss != [] && IsAngle(ss[0].az, pi) && IsAngle(s.az, pi)
    requires var w := Sweep(c, ss, pi);
             2.0 * MinHalfRange(pi) <= w.maxAz - w.minAz < 2.0 * pi &&
             w.minAz <= Wrap(s.az - w.refAz, pi) <= w.maxAz
    ensures var w := Sweep(c, ss, pi); var k := Calibrated(w, screenW, screenH, pi);
            && k.halfAz > 0.0 && k.halfEl > 0.0
            && (forall a: Absolute :: !a.seeded ==>
                  Pointed(a, k, s, pi).sx == (Wrap(s.az - w.refAz, pi) - w.minAz) / (w.maxAz - w.minAz))
  {
    hide Wrap, Normalize, Pointed, Calibrated, Captured, Sweep;
    var w := Sweep(c, ss, pi);
    var k := Calibrated(w, screenW, screenH, pi);
    CalibrationIsSane(w, screenW, screenH, pi);
    WideSweep(w, screenW, screenH, pi);
    SweepBounds(c, ss, pi);
    var off, mid := Wrap(s.az - w.refAz, pi), (w.maxAz + w.minAz) / 2.0;
    OffsetFromNeutral(s.az, w.refAz, mid, pi);
    Linear(off, w.minAz, w.maxAz);
    forall a: Absolute | !a.seeded ensures Pointed(a, k, s, pi).sx == Fraction(off - mid, k.halfAz) {
      PointedFirst(a, k, s, pi);
    }
  }

  lemma WideSweep(w: Capture, screenW: int, screenH: int, pi: real)
    requires pi > 0.0 && 2.0 * MinHalfRange(pi) <= w.maxAz - w.minAz
    ensures var k := Calibrated(w, screenW, screenH, pi);
            && k.halfAz == (w.maxAz - w.minAz) / 2.0
            && k.neutralAz == Normalize(w.refAz + (w.maxAz + w.minAz) / 2.0, pi)
  {
  }

  // ---- The vertical direction ----

  /** Elevations of a sweep, relative to its first sample. */
  ghost predicate Rises(v: real, ss: seq<Sample>)
    requires ss != []
  {
    exists i :: 0 <= i < |ss| && ss[i].el - ss[0].el == v
  }

  lemma {:induction false} ElevationBounds(c: Capture, ss: seq<Sample>, pi: real)
    requires ss != []
    ensures var s := Sweep(c, ss, pi);
            && s.seeded && s.refEl == ss[0].el
            && (forall i :: 0 <= i < |ss| ==> s.minEl <= ss[i].el - ss[0].el <= s.maxEl)
            && Rises(s.minEl, ss) && Rises(s.maxEl, ss)
    decreases |ss|
  {
    hide Wrap;
    var n := |ss| - 1;
    var s := Sweep(c, ss, pi);
    if n == 0 {
      assert Sweep(c, ss[..0], pi) == Begun(c);
      assert ss[0].el - ss[0].el == 0.0;
    } else {
      var before := Sweep(c, ss[..n], pi);
      ElevationBounds(c, ss[..n], pi);
      RisesBefore(before.minEl, ss, n);
      RisesBefore(before.maxEl, ss, n);
      assert Rises(ss[n].el - ss[0].el, ss);
      forall i | 0 <= i < |ss| ensures s.minEl <= ss[i].el - ss[0].el <= s.maxEl {
        if i < n { assert ss[..n][i] == ss[i]; }
      }
    }
  }

  lemma RisesBefore(v: real, ss: seq<Sample>, n: nat)
    requires 0 < n <= |ss|
    ensures Rises(v, ss[..n]) ==> Rises(v, ss)
  {
    if Rises(v, ss[..n]) {
      var i :| 0 <= i < n && ss[..n][i].el - ss[..n][0].el == v;
      assert ss[i].el - ss[0].el == v;
    }
  }

  /**
    How y is pointed at: the middle of the elevations swept is the middle of the screen,
    and the screen's edges are half a range away, proportional within. The range is the
    azimuths' times the aspect of the screen, or the elevations swept if the screen is not
    known, and at least 8 degrees.
  */
  lemma VerticalRangeFillsScreen(c: Capture, ss: seq<Sample>, s: Sample, screenW: int, screenH: int, pi: real, a: Absolute, v: real)
    requires pi > 0.0 && ss != [] && !a.seeded
    requires var w := Sweep(c, ss, pi);
             if screenW > 0 && screenH > 0 then
               v * screenW as real == Max((w.maxAz - w.minAz) / 2.0, 8.0 * pi / 180.0) * screenH as real
             else v == (w.maxEl - w.minEl) / 2.0
    ensures var w := Sweep(c, ss, pi); var k := Calibrated(w, screenW, screenH, pi);
            var half, off := Max(v, 8.0 * pi / 180.0), s.el - ss[0].el - (w.maxEl + w.minEl) / 2.0;
            && k.halfAz > 0.0 && k.halfEl > 0.0 && half > 0.0
            && var y := Pointed(a, k, s, pi).sy;
            && (-half <= off <= half ==> y == (off + half) / (2.0 * half))
            && (off <= -half ==> Coordinate(y) == 0) && (off >= half ==> Coordinate(y) == 65535)
            && (off == 0.0 ==> Coordinate(y) == 32768)
  {
    hide Sweep, Coordinate, Wrap, Calibrated, Pointed, Fraction;
    var w := Sweep(c, ss, pi);
    var k := Calibrated(w, screenW, screenH, pi);
    CalibrationIsSane(w, screenW, screenH, pi);
    ElevationBounds(c, ss, pi);
    CalibratedElevation(w, screenW, screenH, pi, v);
    hide Max;
    var off := s.el - ss[0].el - (w.maxEl + w.minEl) / 2.0;
    assert s.el - k.neutralEl == off;
    PointedFirstY(a, k, s, pi);
    FractionMeans(off, k.halfEl);
    Corners();
  }

  lemma CalibratedElevation(w: Capture, screenW: int, screenH: int, pi: real, v: real)
    requires pi > 0.0
    requires if screenW > 0 && screenH > 0 then
               v * screenW as real == Max((w.maxAz - w.minAz) / 2.0, 8.0 * pi / 180.0) * screenH as real
             else v == (w.maxEl - w.minEl) / 2.0
    ensures var k := Calibrated(w, screenW, screenH, pi);
            k.neutralEl == w.refEl + (w.maxEl + w.minEl) / 2.0 && k.halfEl == Max(v, 8.0 * pi / 180.0)
  {
    hide Max, Normalize;
    var haz := Max((w.maxAz - w.minAz) / 2.0, MinHalfRange(pi));
    if screenW > 0 && screenH > 0 {
      var q := VerticalRange(w, haz, screenW, screenH);
      assert q * screenW as real == haz * screenH as real by { Divides(haz * screenH as real, screenW as real); }
      Cancel(q, v, screenW as real);
    }
  }

  lemma Divides(a: real, b: real)
    requires b > 0.0
    ensures a / b * b == a
  {
  }

  lemma PointedFirstY(a: Absolute, k: Calibration, s: Sample, pi: real)
    requires k.halfAz != 0.0 && k.halfEl != 0.0 && !a.seeded
    ensures Pointed(a, k, s, pi).sy == Fraction(s.el - k.neutralEl, k.halfEl)
  {
  }

  lemma FractionMeans(off: real, half: real)
    requires half > 0.0
    ensures -half <= off <= half ==> Fraction(off, half) == (off + half) / (2.0 * half)
    ensures off <= -half ==> Fraction(off, half) == 0.0
    ensures off >= half ==> Fraction(off, half) == 1.0
    ensures off == 0.0 ==> Fraction(off, half) == 0.5
  {
    var q := off / half;
    Quotient(off, half);
    if -half <= off <= half { Proportional(off, half); }
  }

  lemma Quotient(off: real, half: real)
    requires half > 0.0
    ensures (off <= -half <==> off / half <= -1.0) && (off >= half <==> off / half >= 1.0) && (off == 0.0 ==> off / half == 0.0)
  {
    var q := off / half;
    Divides(off, half);
    Compares(q, -1.0, half, off, -half);
    Compares(1.0, q, half, half, off);
    if off == 0.0 { Cancel(q, 0.0, half); }
  }

  lemma Compares(a: real, b: real, c: real, ac: real, bc: real)
    requires c > 0.0 && ac == a * c && bc == b * c
    ensures a <= b <==> ac <= bc
  {
    Scale(a, b, c);
    Scale(b, a, c);
  }

  lemma Proportional(off: real, half: real)
    requires half > 0.0
    ensures 0.5 + 0.5 * (off / half) == (off + half) / (2.0 * half)
  {
    var q, r := off / half, (off + half) / (2.0 * half);
    Divides(off, half);
    Divides(off + half, 2.0 * half);
    assert (0.5 + 0.5 * q) * (2.0 * half) == half + q * half;
    Cancel(0.5 + 0.5 * q, r, 2.0 * half);
  }

  /** Later samples are averaged with what came before, half and half. */
  lemma PointedAverages(a: Absolute, k: Calibration, s: Sample, pi: real)
    requires k.halfAz != 0.0 && k.halfEl != 0.0 && a.seeded
    ensures Pointed(a, k, s, pi).sx == (a.sx + Fraction(Wrap(s.az - k.neutralAz, pi), k.halfAz)) / 2.0
    ensures Pointed(a, k, s, pi).sy == (a.sy + Fraction(s.el - k.neutralEl, k.halfEl)) / 2.0
  {
    hide Fraction, Wrap;
  }

  lemma PointedFirst(a: Absolute, k: Calibration, s: Sample, pi: real)
    requires k.halfAz != 0.0 && k.halfEl != 0.0 && !a.seeded
    ensures Pointed(a, k, s, pi).sx == Fraction(Wrap(s.az - k.neutralAz, pi), k.halfAz)
  {
  }

  lemma Linear(off: real, lo: real, hi: real)
    requires lo < hi && lo <= off <= hi
    ensures Fraction(off - (hi + lo) / 2.0, (hi - lo) / 2.0) == (off - lo) / (hi - lo)
  {
    var width := hi - lo;
    var half := width / 2.0;
    var q := (off - lo) / width;
    assert q * width == off - lo;
    var r := (off - (hi + lo) / 2.0) / half;
    assert r * half == off - (hi + lo) / 2.0;
    assert (2.0 * q - 1.0) * half == q * width - half;
    Cancel(r, 2.0 * q - 1.0, half);
    Scale(q, 0.0, width);
    Scale(1.0, q, width);
  }

  lemma Edges(width: real)
    requires width > 0.0
    ensures 0.0 / width == 0.0 && width / width == 1.0 && (width / 2.0) / width == 0.5
  {
    Cancel((width / 2.0) / width, 0.5, width);
  }

  lemma Corners()
    ensures Coordinate(0.0) == 0 && Coordinate(1.0) == 65535 && Coordinate(0.5) == 32768
  {
  }

  /** The ends of the sweep are the edges of the screen, and its middle the centre. */
  lemma EndsAndCentre(c: Capture, ss: seq<Sample>, s: Sample, screenW: int, screenH: int, pi: real, a: Absolute)
    requires pi > 0.0 && ss != [] && IsAngle(ss[0].az, pi) && IsAngle(s.az, pi) && !a.seeded
    requires var w := Sweep(c, ss, pi);
             2.0 * MinHalfRange(pi) <= w.maxAz - w.minAz < 2.0 * pi &&
             w.minAz <= Wrap(s.az - w.refAz, pi) <= w.maxAz
    ensures var w := Sweep(c, ss, pi); var k := Calibrated(w, screenW, screenH, pi);
            && k.halfAz > 0.0 && k.halfEl > 0.0
            && (Wrap(s.az - w.refAz, pi) == w.minAz ==> Coordinate(Pointed(a, k, s, pi).sx) == 0)
            && (Wrap(s.az - w.refAz, pi) == w.maxAz ==> Coordinate(Pointed(a, k, s, pi).sx) == 65535)
            && (Wrap(s.az - w.refAz, pi) == (w.minAz + w.maxAz) / 2.0 ==> Coordinate(Pointed(a, k, s, pi).sx) == 32768)
  {
    hide Pointed, Coordinate, Wrap, Calibrated, Sweep;
    var w := Sweep(c, ss, pi);
    SweepFillsScreen(c, ss, s, screenW, screenH, pi);
    var off, width := Wrap(s.az - w.refAz, pi), w.maxAz - w.minAz;
    Edges(width);
    Corners();
    assert off == (w.minAz + w.maxAz) / 2.0 ==> off - w.minAz == width / 2.0;
  }

  // ---- Smoothing ----

  function Held(ema: real, target: real, n: nat): real {
    if n == 0 then ema else Halfway(Held(ema, target, n - 1), target)
  }

  function Half(n: nat): real { if n == 0 then 1.0 else Half(n - 1) / 2.0 }

  /** Each sample at a held pose halves the distance to it. */
  lemma {:induction false} HeldConverges(ema: real, target: real, n: nat)
    requires 0.0 <= ema <= 1.0 && 0.0 <= target <= 1.0
    ensures -Half(n) <= Held(ema, target, n) - target <= Half(n)
  {
    if n > 0 { HeldConverges(ema, target, n - 1); }
  }

  /** Smoothing never leaves the unit interval. */
  lemma PointedStaysInside(a: Absolute, k: Calibration, s: Sample, pi: real)
    requires k.halfAz != 0.0 && k.halfEl != 0.0
    requires OnScreen(a)
    ensures Pointed(a, k, s, pi).seeded && OnScreen(Pointed(a, k, s, pi))
  {
  }

  /** The output after n samples at the same pose. */
  function Repeated(a: Absolute, k: Calibration, s: Sample, pi: real, n: nat): Absolute
    requires k.halfAz != 0.0 && k.halfEl != 0.0
  {
    if n == 0 then a else Pointed(Repeated(a, k, s, pi, n - 1), k, s, pi)
  }

  /** The first sample after a reset sets the pose to the target at once. */
  lemma {:induction false} RepeatedHolds(a: Absolute, k: Calibration, s: Sample, pi: real, n: nat)
    requires k.halfAz != 0.0 && k.halfEl != 0.0 && (a.seeded || n > 0)
    ensures var b := Repeated(a, k, s, pi, n);
            var x, y := Fraction(Wrap(s.az - k.neutralAz, pi), k.halfAz), Fraction(s.el - k.neutralEl, k.halfEl);
            b.seeded && b.sx == Held(if a.seeded then a.sx else x, x, n) && b.sy == Held(if a.seeded then a.sy else y, y, n)
  {
    hide Wrap, Fraction;
    if n > 1 || (n > 0 && a.seeded) { RepeatedHolds(a, k, s, pi, n - 1); }
  }

  lemma {:induction false} HalfShrinks(n: nat)
    ensures 0.0 < Half(n) && (n >= 17 ==> Half(n) * 131072.0 <= 1.0)
  {
    if n == 17 {
      assert Half(16) == Half(12) / 16.0 && Half(12) == Half(8) / 16.0 && Half(8) == Half(4) / 16.0 && Half(4) == Half(0) / 16.0;
    } else if n > 0 {
      HalfShrinks(n - 1);
    }
  }

  /** After seventeen samples at a held pose, wherever the cursor was, each coordinate is
      within one unit of the exact one. */
  lemma SettlesInSeventeen(a: Absolute, k: Calibration, s: Sample, pi: real, n: nat)
    requires k.halfAz != 0.0 && k.halfEl != 0.0 && n >= 17
    requires OnScreen(a)
    ensures var b := Repeated(a, k, s, pi, n);
            && Abs(Coordinate(b.sx) as real - 65535.0 * Fraction(Wrap(s.az - k.neutralAz, pi), k.halfAz)) <= 1.0
            && Abs(Coordinate(b.sy) as real - 65535.0 * Fraction(s.el - k.neutralEl, k.halfEl)) <= 1.0
  {
    hide Repeated, Held, Wrap, Fraction, Coordinate;
    RepeatedHolds(a, k, s, pi, n);
    var x, y := Fraction(Wrap(s.az - k.neutralAz, pi), k.halfAz), Fraction(s.el - k.neutralEl, k.halfEl);
    FractionInRange(Wrap(s.az - k.neutralAz, pi), k.halfAz);
    FractionInRange(s.el - k.neutralEl, k.halfEl);
    Settles(if a.seeded then a.sx else x, x, n);
    Settles(if a.seeded then a.sy else y, y, n);
  }

  lemma FractionInRange(offset: real, half: real)
    requires half != 0.0
    ensures 0.0 <= Fraction(offset, half) <= 1.0
  {
  }

  lemma Settles(ema: real, target: real, n: nat)
    requires 0.0 <= ema <= 1.0 && 0.0 <= target <= 1.0 && n >= 17
    ensures Abs(Coordinate(Held(ema, target, n)) as real - 65535.0 * target) <= 1.0
  {
    hide Half, Held, Rounded;
    var h, x := Half(n), Held(ema, target, n);
    HeldConverges(ema, target, n);
    HalfShrinks(n);
    RoundedIsNear(Clamp(x, 0.0, 1.0) * 65535.0);
    NearEnough(x, target, h, Coordinate(x) as real);
  }

  lemma NearEnough(x: real, target: real, h: real, out: real)
    requires 0.0 <= target <= 1.0 && -h <= x - target <= h && h * 131072.0 <= 1.0
    requires Abs(out - Clamp(x, 0.0, 1.0) * 65535.0) <= 0.5
    ensures Abs(out - 65535.0 * target) <= 1.0
  {
    var y := Clamp(x, 0.0, 1.0);
    assert -h <= y - target <= h;
  }

  /** The smoothed outputs of a run of raw inputs, from a smoothing state. */
  function Outputs(ema: real, raws: seq<real>): seq<real>
    decreases |raws|
  {
    if raws == [] then [] else var e := Smoothed(ema, raws[0]); [e] + Outputs(e, raws[1..])
  }

  function Final(ema: real, raws: seq<real>): real
    decreases |raws|
  {
    if raws == [] then ema else Final(Smoothed(ema, raws[0]), raws[1..])
  }

  function Sum(xs: seq<real>): real
    decreases |xs|
  {
    if xs == [] then 0.0 else xs[0] + Sum(xs[1..])
  }

  function RoundedSum(xs: seq<real>): int
    decreases |xs|
  {
    if xs == [] then 0 else Rounded(xs[0]) + RoundedSum(xs[1..])
  }

  /** Smoothing delays motion but loses none: what has come out is what went in, less 13/7
      of what the smoothing state has gained. */
  lemma {:induction false} SmoothingConserves(ema: real, raws: seq<real>)
    ensures Sum(Outputs(ema, raws)) == Sum(raws) - (13.0 / 7.0) * (Final(ema, raws) - ema)
    decreases |raws|
  {
    if raws != [] {
      var e := Smoothed(ema, raws[0]);
      SmoothingConserves(e, raws[1..]);
      assert Outputs(ema, raws)[1..] == Outputs(e, raws[1..]);
    }
  }

  /** Rounding each of n outputs moves their sum by at most n / 2. */
  lemma {:induction false} RoundingDrift(xs: seq<real>)
    ensures Abs(RoundedSum(xs) as real - Sum(xs)) <= |xs| as real / 2.0
    decreases |xs|
  {
    if xs != [] {
      RoundedIsNear(xs[0]);
      RoundingDrift(xs[1..]);
    }
  }

  /** The horizontal inputs of a run of samples in relative mode, once a sample is known. */
  function RawDX(prevAz: real, ss: seq<Sample>, pi: real): seq<real>
    decreases |ss|
  {
    if ss == [] then [] else [Pixels(Wrap(ss[0].az - prevAz, pi))] + RawDX(ss[0].az, ss[1..], pi)
  }

  function RawDY(prevEl: real, ss: seq<Sample>): seq<real>
    decreases |ss|
  {
    if ss == [] then [] else [Pixels(ss[0].el - prevEl)] + RawDY(ss[0].el, ss[1..])
  }

  /** The relative state after the samples, and the total of the moves delivered. */
  function Delivered(r: Relative, ss: seq<Sample>, pi: real): (Relative, int, int)
    decreases |ss|
  {
    if ss == [] then (r, 0, 0)
    else
      var next := Swept(r, ss[0], pi);
      var (end, x, y) := Delivered(next, ss[1..], pi);
      if r.hasPrev then (end, Rounded(next.emaDX) + x, Rounded(next.emaDY) + y) else (end, x, y)
  }

  lemma {:induction false} DeliveredIsSmoothed(r: Relative, ss: seq<Sample>, pi: real)
    requires r.hasPrev
    ensures var (end, x, y) := Delivered(r, ss, pi);
            && end.emaDX == Final(r.emaDX, RawDX(r.prevAz, ss, pi)) && x == RoundedSum(Outputs(r.emaDX, RawDX(r.prevAz, ss, pi)))
            && end.emaDY == Final(r.emaDY, RawDY(r.prevEl, ss)) && y == RoundedSum(Outputs(r.emaDY, RawDY(r.prevEl, ss)))
    decreases |ss|
  {
    if ss != [] {
      DeliveredIsSmoothed(Swept(r, ss[0], pi), ss[1..], pi);
      assert RawDX(r.prevAz, ss, pi)[1..] == RawDX(ss[0].az, ss[1..], pi);
      assert RawDY(r.prevEl, ss)[1..] == RawDY(ss[0].el, ss[1..]);
    }
  }

  lemma {:induction false} SameLength(ema: real, raws: seq<real>)
    ensures |Outputs(ema, raws)| == |raws|
    decreases |raws|
  {
    if raws != [] { SameLength(Smoothed(ema, raws[0]), raws[1..]); }
  }

  lemma {:induction false} OneInputEach(az: real, el: real, ss: seq<Sample>, pi: real)
    ensures |RawDX(az, ss, pi)| == |ss| == |RawDY(el, ss)|
    decreases |ss|
  {
    if ss != [] { OneInputEach(ss[0].az, ss[0].el, ss[1..], pi); }
  }

  /** Relative motion as delivered: over n samples each axis moves the cursor by the raw
      motion, less what is still in the smoothing state, to within n / 2 pixels. */
  lemma RelativeMotionArrives(r: Relative, ss: seq<Sample>, pi: real)
    requires r.hasPrev
    ensures var (end, x, y) := Delivered(r, ss, pi); var slack := |ss| as real / 2.0;
            && Abs(x as real - (Sum(RawDX(r.prevAz, ss, pi)) - (13.0 / 7.0) * (end.emaDX - r.emaDX))) <= slack
            && Abs(y as real - (Sum(RawDY(r.prevEl, ss)) - (13.0 / 7.0) * (end.emaDY - r.emaDY))) <= slack
  {
    hide Sum, RoundedSum, Outputs, Final, RawDX, RawDY, Delivered;
    var xs, ys := RawDX(r.prevAz, ss, pi), RawDY(r.prevEl, ss);
    DeliveredIsSmoothed(r, ss, pi);
    OneInputEach(r.prevAz, r.prevEl, ss, pi);
    SmoothingConserves(r.emaDX, xs);
    SmoothingConserves(r.emaDY, ys);
    RoundingDrift(Outputs(r.emaDX, xs));
    RoundingDrift(Outputs(r.emaDY, ys));
    SameLength(r.emaDX, xs);
    SameLength(r.emaDY, ys);
  }

  // ---- Relative motion follows the hand ----

  /** The azimuth and the elevation before sample i. */
  function AzBefore(prevAz: real, ss: seq<Sample>, i: nat): real
    requires i <= |ss|
  {
    if i == 0 then prevAz else ss[i - 1].az
  }

  function ElBefore(prevEl: real, ss: seq<Sample>, i: nat): real
    requires i <= |ss|
  {
    if i == 0 then prevEl else ss[i - 1].el
  }

  /** A step of d radians is worth 1100 pixels a radian, but nothing below 0.0009. */
  lemma PixelsMean(d: real)
    ensures -0.0009 < d < 0.0009 ==> Pixels(d) == 0.0
    ensures d <= -0.0009 || d >= 0.0009 ==> Pixels(d) == 1100.0 * d
    ensures -0.99 <= Pixels(d) - 1100.0 * d <= 0.99
  {
  }

  /** k whole turns. */
  function Turns(k: int, pi: real): real {
    k as real * (2.0 * pi)
  }

  /** The short way round from one angle to another. */
  lemma WrapMeans(d: real, pi: real) returns (k: int)
    requires pi > 0.0 && -2.0 * pi <= d <= 2.0 * pi
    ensures Wrap(d, pi) == d + Turns(k, pi) && -pi <= Wrap(d, pi) <= pi
    ensures -pi <= d <= pi ==> k == 0
  {
    k := if d > pi then -1 else if d < -pi then 1 else 0;
  }

  lemma {:induction false} AzimuthIsSwept(prevAz: real, ss: seq<Sample>, pi: real) returns (k: int)
    requires pi > 0.0 && IsAngle(prevAz, pi) && forall i :: 0 <= i < |ss| ==> IsAngle(ss[i].az, pi)
    ensures Abs(Sum(RawDX(prevAz, ss, pi)) - 1100.0 * (AzBefore(prevAz, ss, |ss|) - prevAz + Turns(k, pi))) <= 0.99 * |ss| as real
    ensures (forall i :: 0 <= i < |ss| ==> -pi <= ss[i].az - AzBefore(prevAz, ss, i) <= pi) ==> k == 0
    decreases |ss|
  {
    hide Wrap, Pixels, RawDX, Sum, Abs, Turns;
    TurnsAdd(0, 0, pi);
    if ss == [] {
      k := 0;
      NothingSwept(prevAz, pi);
    } else {
      var d := ss[0].az - prevAz;
      var j := WrapMeans(d, pi);
      var rest := ss[1..];
      assert forall i :: 0 <= i < |rest| ==> rest[i] == ss[i + 1] && AzBefore(ss[0].az, rest, i) == AzBefore(prevAz, ss, i + 1);
      var more := AzimuthIsSwept(ss[0].az, rest, pi);
      k := j + more;
      PixelsMean(Wrap(d, pi));
      RawFirst(prevAz, ss, pi);
      assert AzBefore(ss[0].az, rest, |rest|) == AzBefore(prevAz, ss, |ss|);
      TurnsAdd(j, more, pi);
      OneMoreSwept(Pixels(Wrap(d, pi)), Sum(RawDX(ss[0].az, rest, pi)), prevAz, ss[0].az, AzBefore(prevAz, ss, |ss|),
                   Turns(j, pi), Turns(more, pi), |rest|);
      assert ss[0].az - AzBefore(prevAz, ss, 0) == d;
    }
  }

  lemma NothingSwept(prevAz: real, pi: real)
    ensures Sum(RawDX(prevAz, [], pi)) == 0.0 && Abs(0.0) == 0.0 && AzBefore(prevAz, [], 0) == prevAz
  {
  }

  lemma RawFirst(prevAz: real, ss: seq<Sample>, pi: real)
    requires ss != []
    ensures Sum(RawDX(prevAz, ss, pi)) == Pixels(Wrap(ss[0].az - prevAz, pi)) + Sum(RawDX(ss[0].az, ss[1..], pi))
  {
    hide Pixels, Wrap;
    assert RawDX(prevAz, ss, pi)[1..] == RawDX(ss[0].az, ss[1..], pi);
  }

  lemma TurnsAdd(j: int, k: int, pi: real)
    ensures Turns(j + k, pi) == Turns(j, pi) + Turns(k, pi) && Turns(0, pi) == 0.0
  {
  }

  lemma OneMoreSwept(pixels: real, sum: real, before: real, here: real, end: real, turn: real, turns: real, n: nat)
    requires -0.99 <= pixels - 1100.0 * (here - before + turn) <= 0.99
    requires Abs(sum - 1100.0 * (end - here + turns)) <= 0.99 * n as real
    ensures Abs(pixels + sum - 1100.0 * (end - before + (turn + turns))) <= 0.99 * (n + 1) as real
  {
  }

  lemma {:induction false} ElevationIsSwept(prevEl: real, ss: seq<Sample>)
    ensures Abs(Sum(RawDY(prevEl, ss)) - 1100.0 * (ElBefore(prevEl, ss, |ss|) - prevEl)) <= 0.99 * |ss| as real
    decreases |ss|
  {
    hide Pixels;
    if ss != [] {
      ElevationIsSwept(ss[0].el, ss[1..]);
      PixelsMean(ss[0].el - prevEl);
      assert RawDY(prevEl, ss)[1..] == RawDY(ss[0].el, ss[1..]);
      assert ElBefore(ss[0].el, ss[1..], |ss| - 1) == ElBefore(prevEl, ss, |ss|);
    }
  }

  /**
    The cursor follows the hand: over any n samples it moves by 1100 pixels for each radian
    of azimuth and of elevation between the first and the last, whole turns of the seam
    apart, less what is still in the smoothing state, to within 1.49 pixels a sample.
  */
  lemma CursorFollowsTheHand(r: Relative, ss: seq<Sample>, pi: real) returns (k: int)
    requires r.hasPrev && pi > 0.0 && IsAngle(r.prevAz, pi) && forall i :: 0 <= i < |ss| ==> IsAngle(ss[i].az, pi)
    ensures var (end, x, y) := Delivered(r, ss, pi); var slack := 1.49 * |ss| as real;
            && Abs(x as real - (1100.0 * (AzBefore(r.prevAz, ss, |ss|) - r.prevAz + Turns(k, pi)) - (13.0 / 7.0) * (end.emaDX - r.emaDX))) <= slack
            && Abs(y as real - (1100.0 * (ElBefore(r.prevEl, ss, |ss|) - r.prevEl) - (13.0 / 7.0) * (end.emaDY - r.emaDY))) <= slack
    ensures (forall i :: 0 <= i < |ss| ==> -pi <= ss[i].az - AzBefore(r.prevAz, ss, i) <= pi) ==> k == 0
  {
    hide Sum, RawDX, RawDY, Delivered, AzBefore, ElBefore, Turns;
    k := AzimuthIsSwept(r.prevAz, ss, pi);
    ElevationIsSwept(r.prevEl, ss);
    RelativeMotionArrives(r, ss, pi);
  }

  /** A hand that trembles by less than the dead zone leaves a resting cursor alone. */
  lemma {:induction false} TremblingMovesNothing(r: Relative, ss: seq<Sample>, pi: real)
    requires r.hasPrev && r.emaDX == 0.0 && r.emaDY == 0.0
    requires forall i :: 0 <= i < |ss| ==> -0.0009 < Wrap(ss[i].az - AzBefore(r.prevAz, ss, i), pi) < 0.0009
    requires forall i :: 0 <= i < |ss| ==> -0.0009 < ss[i].el - ElBefore(r.prevEl, ss, i) < 0.0009
    ensures Delivered(r, ss, pi).1 == 0 && Delivered(r, ss, pi).2 == 0
    decreases |ss|
  {
    hide Wrap, Pixels;
    if ss != [] {
      PixelsMean(Wrap(ss[0].az - AzBefore(r.prevAz, ss, 0), pi));
      PixelsMean(ss[0].el - ElBefore(r.prevEl, ss, 0));
      var next := Swept(r, ss[0], pi);
      assert forall i :: 0 <= i < |ss[1..]| ==>
        ss[1..][i] == ss[i + 1] && AzBefore(next.prevAz, ss[1..], i) == AzBefore(r.prevAz, ss, i + 1)
        && ElBefore(next.prevEl, ss[1..], i) == ElBefore(r.prevEl, ss, i + 1);
      TremblingMovesNothing(next, ss[1..], pi);
    }
  }
}
