/**
  server/injector_windows.go: the pointer that the secure desktop's injector tracks in
  virtual-screen pixels, in 32-bit arithmetic, and its scaling to 0..65535.
*/
module WinPointer {
  import opened Prelude

  const MAX32: int := 0x7FFF_FFFF
  const MIN32: int := -0x8000_0000
  const FULL: int := 65535

  predicate Fits32(n: int) { MIN32 <= n <= MAX32 }

  /** Conversion to int32, and the result of int32 addition. */
  function Wrap32(n: int): (r: int)
    ensures Fits32(r) && (Fits32(n) ==> r == n)
  {
    (n + 0x8000_0000) % 0x1_0000_0000 - 0x8000_0000
  }

  function Clamp(v: int, lo: int, hi: int): int {
    if v < lo then lo else if v > hi then hi else v
  }

  function Max(a: int, b: int): int { if a > b then a else b }

  /** One axis of the virtual screen: its first pixel and how many there are. */
  datatype Span = Span(origin: int, extent: int) {
    ghost predicate Valid() { Fits32(origin) && 1 <= extent && Fits32(extent) && Fits32(origin + extent - 1) }
    function Last(): int { Wrap32(Wrap32(origin + extent) - 1) }
    predicate Has(v: int) { origin <= v < origin + extent }
  }

  lemma LastIsLast(s: Span)
    requires s.Valid()
    ensures s.Last() == s.origin + s.extent - 1
  {
  }

  /** normAbs on one axis. */
  function Normalize(v: int, s: Span): int {
    Wrap32((Wrap32(Clamp(v, s.origin, s.Last()) - s.origin)) * FULL / Max(s.extent - 1, 1))
  }

  // ---- The tracked pointer ----

  /** Where control starts: the live cursor, or the middle of the axis. */
  function Seed(cursor: Option<int>, s: Span): int {
    if cursor.Some? then cursor.value else Wrap32(s.origin + s.extent / 2)
  }

  function Tracked(v: int, d: int64, s: Span): int {
    Clamp(Wrap32(v + Wrap32(d)), s.origin, s.Last())
  }

  /** A move that stays on the screen goes where it says. */
  lemma Within(v: int, d: int64, s: Span)
    requires s.Valid()
    ensures Fits32(d) && s.Has(v + d) ==> Tracked(v, d, s) == v + d
  {
    LastIsLast(s);
  }

  lemma Middle(s: Span)
    requires s.Valid()
    ensures Wrap32(s.origin + s.extent / 2) == s.origin + s.extent / 2
  {
  }

  lemma TrackedInside(v: int, d: int64, s: Span)
    requires s.Valid()
    ensures s.Has(Tracked(v, d, s))
  {
    LastIsLast(s);
  }

  class WinInjector {
    var seeded: bool
    var x: int
    var y: int

    constructor ()
      ensures !seeded
    {
      seeded, x, y := false, 0, 0;
    }

    method AbsMove(dx: int64, dy: int64, sx: Span, sy: Span, cursor: Option<(int, int)>) returns (nx: int, ny: int)
      requires sx.Valid() && sy.Valid()
      modifies this
      ensures seeded
      ensures x == Tracked(if old(seeded) then old(x) else Seed(if cursor.Some? then Some(cursor.value.0) else None, sx), dx, sx)
      ensures y == Tracked(if old(seeded) then old(y) else Seed(if cursor.Some? then Some(cursor.value.1) else None, sy), dy, sy)
      ensures sx.Has(x) && sy.Has(y)
      ensures var fromX := if old(seeded) then old(x) else if cursor.Some? then cursor.value.0 else sx.origin + sx.extent / 2;
              var fromY := if old(seeded) then old(y) else if cursor.Some? then cursor.value.1 else sy.origin + sy.extent / 2;
              && (Fits32(dx) && sx.Has(fromX + dx) ==> x == fromX + dx)
              && (Fits32(dy) && sy.Has(fromY + dy) ==> y == fromY + dy)
      ensures nx == Normalize(x, sx) && ny == Normalize(y, sy)
    {
      hide Normalize, Wrap32, Clamp;
      if !seeded {
        if cursor.Some? {
          x, y := cursor.value.0, cursor.value.1;
        } else {
          x, y := Wrap32(sx.origin + sx.extent / 2), Wrap32(sy.origin + sy.extent / 2);
        }
        seeded := true;
      }
      x := Clamp(Wrap32(x + Wrap32(dx)), sx.origin, sx.Last());
      y := Clamp(Wrap32(y + Wrap32(dy)), sy.origin, sy.Last());
      TrackedInside(old(if seeded then x else Seed(if cursor.Some? then Some(cursor.value.0) else None, sx)), dx, sx);
      TrackedInside(old(if seeded then y else Seed(if cursor.Some? then Some(cursor.value.1) else None, sy)), dy, sy);
      Within(old(if seeded then x else if cursor.Some? then cursor.value.0 else sx.origin + sx.extent / 2), dx, sx);
      Within(old(if seeded then y else if cursor.Some? then cursor.value.1 else sy.origin + sy.extent / 2), dy, sy);
      Middle(sx);
      Middle(sy);
      nx, ny := Normalize(x, sx), Normalize(y, sy);
    }
  }

  /** What a move should do: go by d and stop at the edges. */
  function Walked(v: int, d: int, s: Span): int {
    Clamp(v + d, s.origin, s.origin + s.extent - 1)
  }

  /** A move with its delta, on the screen as it was at the time. */
  datatype Step = Step(d: int64, span: Span)

  function Track(v: int, steps: seq<Step>): int
    decreases |steps|
  {
    if steps == [] then v
    else var n := |steps| - 1; Tracked(Track(v, steps[..n]), steps[n].d, steps[n].span)
  }

  function Walk(v: int, steps: seq<Step>): int
    decreases |steps|
  {
    if steps == [] then v
    else var n := |steps| - 1; Walked(Walk(v, steps[..n]), steps[n].d, steps[n].span)
  }

  /**
    One move is the clamped walk exactly if the sum fits into 32 bits, or there is only one
    pixel, or the sum wraps around to a value beyond the very edge at which the walk stops.
  */
  lemma TracksExactly(v: int, d: int64, s: Span)
    requires s.Valid()
    ensures s.Has(Tracked(v, d, s))
    ensures Tracked(v, d, s) == Walked(v, d, s) <==>
              Fits32(v + d) || s.extent == 1
              || (v + d > MAX32 && Wrap32(v + d) >= s.origin + s.extent - 1)
              || (v + d < MIN32 && Wrap32(v + d) <= s.origin)
  {
    LastIsLast(s);
    WrapOnce(v, d);
    var u := Wrap32(v + d);
    assert Tracked(v, d, s) == Clamp(u, s.origin, s.origin + s.extent - 1);
    if Fits32(v + d) {
      assert u == v + d;
    } else if v + d > MAX32 {
      assert Walked(v, d, s) == s.origin + s.extent - 1;
    } else {
      assert Walked(v, d, s) == s.origin;
    }
  }

  lemma WrapOnce(v: int, d: int)
    ensures Wrap32(v + Wrap32(d)) == Wrap32(v + d)
  {
    var k := (d + 0x8000_0000) / 0x1_0000_0000;
    assert Wrap32(d) == d - k * 0x1_0000_0000;
    Periodic(v + d + 0x8000_0000, -k);
  }

  lemma Periodic(n: int, k: int)
    ensures (n + k * 0x1_0000_0000) % 0x1_0000_0000 == n % 0x1_0000_0000
  {
  }

  /** No addition of this run leaves 32 bits. */
  predicate NeverWraps(v: int, steps: seq<Step>)
    decreases |steps|
  {
    steps == [] ||
    var n := |steps| - 1;
    NeverWraps(v, steps[..n]) && Fits32(Walk(v, steps[..n]) + steps[n].d)
  }

  /** Over any run of moves on any screens the pointer stays on the screen, and it is the
      clamped walk as long as no addition wraps. */
  lemma {:induction false} PointerWalks(v: int, steps: seq<Step>)
    requires forall i :: 0 <= i < |steps| ==> steps[i].span.Valid()
    ensures steps != [] ==> steps[|steps| - 1].span.Has(Track(v, steps))
    ensures NeverWraps(v, steps) ==> Track(v, steps) == Walk(v, steps)
    decreases |steps|
  {
    if steps != [] {
      var n := |steps| - 1;
      PointerWalks(v, steps[..n]);
      TracksExactly(Track(v, steps[..n]), steps[n].d, steps[n].span);
    }
  }

  /** Pressing a button re-asserts the position without changing it. */
  lemma ButtonsDoNotMove(v: int, s: Span)
    requires s.Valid() && s.Has(v)
    ensures Tracked(v, 0, s) == v
  {
    LastIsLast(s);
  }

  // ---- Scaling ----

  /** n is the floor of a / e. */
  predicate Floor(n: int, a: int, e: int) {
    n * e <= a < n * e + e
  }

  lemma FloorOf(a: int, e: int)
    requires e > 0
    ensures Floor(a / e, a, e)
  {
  }

  lemma FloorUp(n: int, a: int, m: int, b: int, e: int)
    requires e > 0 && Floor(n, a, e) && Floor(m, b, e)
    ensures a <= b ==> n <= m
    ensures a + e <= b ==> n < m
  {
    if m < n { Times(m + 1, n, e); Times(m, n, e); }
    if m <= n { Times(m, n, e); }
  }

  lemma Times(m: int, n: int, e: int)
    requires m <= n && e > 0
    ensures m * e <= n * e && (m + 1) * e == m * e + e
  {
  }

  /** The scaled coordinate, with its rounding error, of a pixel on the screen. */
  lemma Scaled(v: int, s: Span)
    requires s.Valid() && s.Has(v)
    ensures Floor(Normalize(v, s), (v - s.origin) * FULL, Max(s.extent - 1, 1))
    ensures 0 <= Normalize(v, s) <= FULL
  {
    LastIsLast(s);
    var d := v - s.origin;
    var e := Max(s.extent - 1, 1);
    var n := d * FULL / e;
    FloorOf(d * FULL, e);
    FloorUp(0, 0, n, d * FULL, e);
    assert d * FULL <= e * FULL;
    assert Floor(FULL, e * FULL, e);
    FloorUp(n, d * FULL, FULL, e * FULL, e);
  }

  lemma Clamped(v: int, s: Span)
    requires s.Valid()
    ensures s.Has(Walked(v, 0, s)) && Normalize(v, s) == Normalize(Walked(v, 0, s), s)
  {
    LastIsLast(s);
  }

  /**
    Whatever pixel is asked for, the coordinate is in range, coordinates keep the order of
    pixels, both ends of the screen are reached when it has more than one pixel, and the
    scaled rounding error is below one step.
  */
  lemma ScalingIsFaithful(v: int, w: int, s: Span)
    requires s.Valid() && v <= w
    ensures 0 <= Normalize(v, s) <= Normalize(w, s) <= FULL
    ensures s.extent > 1 ==> Normalize(s.origin, s) == 0 && Normalize(s.origin + s.extent - 1, s) == 65535
    ensures s.Has(v) ==> var e := Max(s.extent - 1, 1); 0 <= (v - s.origin) * FULL - Normalize(v, s) * e < e
  {
    ScalingKeepsOrder(v, w, s);
    ScalingReachesEnds(s);
    if s.Has(v) { Scaled(v, s); }
  }

  lemma ScalingKeepsOrder(v: int, w: int, s: Span)
    requires s.Valid() && v <= w
    ensures 0 <= Normalize(v, s) <= Normalize(w, s) <= FULL
  {
    hide Normalize;
    var a, b := Walked(v, 0, s), Walked(w, 0, s);
    Clamped(v, s);
    Clamped(w, s);
    Scaled(a, s);
    Scaled(b, s);
    FloorUp(Normalize(a, s), (a - s.origin) * FULL, Normalize(b, s), (b - s.origin) * FULL, Max(s.extent - 1, 1));
  }

  lemma ScalingReachesEnds(s: Span)
    requires s.Valid()
    ensures s.extent > 1 ==> Normalize(s.origin, s) == 0 && Normalize(s.origin + s.extent - 1, s) == FULL
  {
    hide Normalize;
    var e := s.extent - 1;
    if e > 0 {
      Scaled(s.origin, s);
      Scaled(s.origin + e, s);
      FloorUp(Normalize(s.origin, s), 0, 0, 0, e);
      assert Floor(FULL, e * FULL, e);
      FloorUp(FULL, e * FULL, Normalize(s.origin + e, s), e * FULL, e);
    }
  }

  /** Different pixels get different coordinates exactly if there are at most 65536. */
  lemma InjectiveExactly(s: Span)
    requires s.Valid()
    ensures (forall v, w :: s.Has(v) && s.Has(w) && v < w ==> Normalize(v, s) < Normalize(w, s)) <==> s.extent <= FULL + 1
  {
    var e := Max(s.extent - 1, 1);
    if s.extent <= FULL + 1 {
      forall v, w | s.Has(v) && s.Has(w) && v < w ensures Normalize(v, s) < Normalize(w, s) {
        Scaled(v, s);
        Scaled(w, s);
        FloorUp(Normalize(v, s), (v - s.origin) * FULL, Normalize(w, s), (w - s.origin) * FULL, e);
      }
    } else {
      var v, w := s.origin, s.origin + 1;
      Scaled(v, s);
      Scaled(w, s);
      assert Floor(0, FULL, e) && Floor(0, 0, e);
      FloorUp(Normalize(w, s), FULL, 0, FULL, e);
      assert s.Has(v) && s.Has(w) && !(Normalize(v, s) < Normalize(w, s));
    }
  }

  /** MoveAbs: coordinates in range reach the system unchanged, others stop at the ends. */
  function Position(n: int64): (r: int)
    ensures 0 <= r <= FULL
    ensures 0 <= n <= FULL ==> r == n
    ensures Fits32(n) ==> (n < 0 ==> r == 0) && (n > FULL ==> r == FULL)
  {
    Clamp(Wrap32(n), 0, FULL)
  }
}
