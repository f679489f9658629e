/**
 * The pen emulator and stroke planner of `src/pen.rs`.
 *
 * `draw_bitmap` and `draw_line` are modelled as plans of pen calls
 * (`Emission.Step<PenCall>`); `Packet` gives the raw input events each call
 * writes to the digitizer. Moves issued in screen pixels stay `GotoScreen`:
 * the float conversion `screen_to_input` is not part of this model and is
 * passed in where raw events are needed.
 */
module Pen {
  import opened Common
  import opened Emission

  // Logical screen and digitizer ranges (src/pen.rs:6-10).
  const InputWidth: int := 15725
  const InputHeight: int := 20966
  const ScreenWidth: int := 1404
  const ScreenHeight: int := 1872

  // Linux input event codes used by the pen packets.
  const AbsX: int := 0
  const AbsY: int := 1
  const AbsPressure: int := 24
  const AbsDistance: int := 25
  const BtnToolPen: int := 320
  const BtnTouch: int := 330
  const MaxPressure: int := 2630
  const HoverDistance: int := 100

  datatype Point = Point(x: int, y: int)

  /** The calls the stroke planner makes on the pen device. */
  datatype PenCall =
    | PenDown
    | PenUp
    | Goto(p: Point)        // `goto_xy`: digitizer coordinates
    | GotoScreen(p: Point)  // `goto_xy_screen`: screen pixels

  type Plan = seq<Step<PenCall>>

  /** Value of the last `BTN_TOUCH` key event of a packet, if any. */
  function TouchValue(events: seq<InputEvent>): Option<int>
  {
    if |events| == 0 then None
    else
      var e := events[|events| - 1];
      if e.kind == EvKey && e.code == BtnTouch then Some(e.value) else TouchValue(events[..|events| - 1])
  }

  /** The packet of `goto_xy`: `ABS_X`, `ABS_Y`, `SYN_REPORT`. */
  function GotoPacket(p: Point): seq<InputEvent>
  {
    [InputEvent(EvAbs, AbsX, p.x), InputEvent(EvAbs, AbsY, p.y), SynReport]
  }

  /** The events one `send_events` call writes for `call`; `toInput` stands
      for `screen_to_input`. */
  function Packet(call: PenCall, toInput: Point -> Point): (r: seq<InputEvent>)
    ensures |r| >= 3 && r[|r| - 1] == SynReport
    ensures forall i :: 0 <= i < |r| - 1 ==> r[i].kind != EvSyn
    ensures TouchValue(r) == match call
                             case PenDown => Some(1)
                             case PenUp => Some(0)
                             case _ => None
    ensures call.PenDown? ==> r == [InputEvent(EvKey, BtnToolPen, 1), InputEvent(EvKey, BtnTouch, 1),
                                    InputEvent(EvAbs, AbsPressure, MaxPressure), InputEvent(EvAbs, AbsDistance, 0),
                                    SynReport]
    ensures call.PenUp? ==> r == [InputEvent(EvAbs, AbsPressure, 0), InputEvent(EvAbs, AbsDistance, HoverDistance),
                                  InputEvent(EvKey, BtnTouch, 0), InputEvent(EvKey, BtnToolPen, 0),
                                  SynReport]
    ensures call.PenDown? || call.PenUp? ==> |r| == 5
    ensures call.Goto? ==> r == GotoPacket(call.p)
    ensures call.GotoScreen? ==> r == GotoPacket(toInput(call.p))
  {
    match call
    case PenDown =>
      var e0, e1 := InputEvent(EvKey, BtnToolPen, 1), InputEvent(EvKey, BtnTouch, 1);
      var e2, e3 := InputEvent(EvAbs, AbsPressure, MaxPressure), InputEvent(EvAbs, AbsDistance, 0);
      var r := [e0, e1, e2, e3, SynReport];
      assert r[..4] == [e0, e1, e2, e3];
      assert r[..4][..3] == [e0, e1, e2];
      assert r[..4][..3][..2] == [e0, e1];
      assert TouchValue([e0, e1]) == Some(1);
      assert TouchValue([e0, e1, e2]) == Some(1);
      assert TouchValue([e0, e1, e2, e3]) == Some(1);
      r
    case PenUp =>
      var e0, e1 := InputEvent(EvAbs, AbsPressure, 0), InputEvent(EvAbs, AbsDistance, HoverDistance);
      var e2, e3 := InputEvent(EvKey, BtnTouch, 0), InputEvent(EvKey, BtnToolPen, 0);
      var r := [e0, e1, e2, e3, SynReport];
      assert r[..4] == [e0, e1, e2, e3];
      assert r[..4][..3] == [e0, e1, e2];
      assert TouchValue([e0, e1, e2]) == Some(0);
      assert TouchValue([e0, e1, e2, e3]) == Some(0);
      r
    case Goto(p) =>
      GotoPacketHasNoTouch(p);
      GotoPacket(p)
    case GotoScreen(p) =>
      GotoPacketHasNoTouch(toInput(p));
      GotoPacket(toInput(p))
  }

  lemma GotoPacketHasNoTouch(p: Point)
    ensures TouchValue(GotoPacket(p)) == None
  {
    var e0, e1 := InputEvent(EvAbs, AbsX, p.x), InputEvent(EvAbs, AbsY, p.y);
    assert TouchValue([]) == None;
    assert [e0][..0] == [];
    assert TouchValue([e0]) == None;
    assert [e0, e1][..1] == [e0];
    assert TouchValue([e0, e1]) == None;
    assert [e0, e1, SynReport][..2] == [e0, e1];
  }

  // ---------------------------------------------------------------------
  // Pen state along a plan

  /** Whether the pen is down after `plan`, starting from `down`. */
  function PenAfter(plan: Plan, down: bool): bool
  {
    if |plan| == 0 then down
    else
      var d := PenAfter(plan[..|plan| - 1], down);
      match plan[|plan| - 1]
      case Emit(PenDown) => true
      case Emit(PenUp) => false
      case _ => d
  }

  lemma {:induction false} PenAfterAppend(a: Plan, b: Plan, down: bool)
    ensures PenAfter(a + b, down) == PenAfter(b, PenAfter(a, down))
    decreases |b|
  {
    if |b| == 0 {
      assert a + b == a;
    } else {
      assert (a + b)[..|a + b| - 1] == a + b[..|b| - 1];
      PenAfterAppend(a, b[..|b| - 1], down);
    }
  }

  /** The pen is never lowered while it is already down. */
  ghost predicate LowersOnlyWhenUp(plan: Plan, down: bool)
  {
    forall i :: 0 <= i < |plan| && plan[i] == Emit(PenDown) ==> !PenAfter(plan[..i], down)
  }

  lemma LowersOnlyWhenUpAppend(a: Plan, b: Plan, down: bool)
    requires LowersOnlyWhenUp(a, down)
    requires LowersOnlyWhenUp(b, PenAfter(a, down))
    ensures LowersOnlyWhenUp(a + b, down)
  {
    forall i | 0 <= i < |a + b| && (a + b)[i] == Emit(PenDown)
      ensures !PenAfter((a + b)[..i], down)
    {
      if i < |a| {
        assert (a + b)[..i] == a[..i];
      } else {
        assert (a + b)[..i] == a + b[..i - |a|];
        assert b[i - |a|] == (a + b)[i];
        PenAfterAppend(a, b[..i - |a|], down);
      }
    }
  }

  predicate IsPenDown(s: Step<PenCall>) { s == Emit(PenDown) }
  predicate IsPenUp(s: Step<PenCall>) { s == Emit(PenUp) }
  predicate IsScreenMove(s: Step<PenCall>) { s.Emit? && s.payload.GotoScreen? }

  // ---------------------------------------------------------------------
  // draw_bitmap

  /** The calls made for pixel (x, y) when the pen is `down` before it. */
  function PixelPlan(pixel: bool, x: int, y: int, down: bool): Plan
  {
    if pixel then
      (if down then [] else [Emit(GotoScreen(Point(x, y))), Emit(PenDown), Pause(1)])
      + [Emit(GotoScreen(Point(x, y))), Emit(GotoScreen(Point(x + 1, y)))]
    else if down then [Emit(PenUp), Pause(1)]
    else []
  }

  /** Whether the pen is down after the first `n` pixels of a row. */
  function DownAfter(row: seq<bool>, n: nat): bool
    requires n <= |row|
  {
    n > 0 && row[n - 1]
  }

  /** The calls made for the first `n` pixels of row `y`. */
  function ScanPlan(row: seq<bool>, y: int, n: nat): Plan
    requires n <= |row|
  {
    if n == 0 then [] else ScanPlan(row, y, n - 1) + PixelPlan(row[n - 1], n - 1, y, DownAfter(row, n - 1))
  }

  /** The calls made for row `y`: the pixels, then the unconditional lift. */
  function RowPlan(row: seq<bool>, y: int): Plan
  {
    ScanPlan(row, y, |row|) + [Emit(PenUp), Pause(5)]
  }

  /** The calls made for the first `n` rows of a bitmap. */
  function BitmapPlan(bitmap: seq<seq<bool>>, n: nat): Plan
    requires n <= |bitmap|
  {
    if n == 0 then [] else BitmapPlan(bitmap, n - 1) + RowPlan(bitmap[n - 1], n - 1)
  }

  /** `Pen::draw_bitmap`, written as the source's two nested loops. */
  method DrawBitmap(bitmap: seq<seq<bool>>) returns (plan: Plan)
    ensures plan == BitmapPlan(bitmap, |bitmap|)
  {
    plan := [];
    var y := 0;
    while y < |bitmap|
      invariant y <= |bitmap|
      invariant plan == BitmapPlan(bitmap, y)
    {
      var steps := DrawRow(bitmap[y], y);
      plan := plan + steps;
      y := y + 1;
    }
  }

  /** One row of `draw_bitmap`: the pen enters the row up and leaves it up. */
  method DrawRow(row: seq<bool>, y: int) returns (plan: Plan)
    ensures plan == RowPlan(row, y)
  {
    plan := [];
    var isPenDown := false;
    var x := 0;
    while x < |row|
      invariant x <= |row|
      invariant plan == ScanPlan(row, y, x)
      invariant isPenDown == DownAfter(row, x)
    {
      var calls;
      calls, isPenDown := DrawPixel(row[x], x, y, isPenDown);
      plan := plan + calls;
      x := x + 1;
    }
    plan := plan + [Emit(PenUp)];
    plan := plan + [Pause(5)];
  }

  /** The body of the inner loop for one pixel: lower the pen on entering
      ink, stroke the ink pixel, lift the pen on leaving ink. */
  method DrawPixel(pixel: bool, x: int, y: int, down: bool) returns (calls: Plan, isPenDown: bool)
    ensures calls == PixelPlan(pixel, x, y, down) && isPenDown == pixel
  {
    calls := [];
    isPenDown := down;
    if pixel {
      if !isPenDown {
        calls := calls + [Emit(GotoScreen(Point(x, y))), Emit(PenDown)];
        isPenDown := true;
        calls := calls + [Pause(1)];
      }
      calls := calls + [Emit(GotoScreen(Point(x, y))), Emit(GotoScreen(Point(x + 1, y)))];
    } else if isPenDown {
      calls := calls + [Emit(PenUp)];
      isPenDown := false;
      calls := calls + [Pause(1)];
    }
  }

  // --- pen state ---

  lemma PenAfterSnoc(plan: Plan, s: Step<PenCall>, down: bool)
    ensures PenAfter(plan + [s], down) == match s
                                          case Emit(PenDown) => true
                                          case Emit(PenUp) => false
                                          case _ => PenAfter(plan, down)
  {
    assert (plan + [s])[..|plan|] == plan;
  }

  /** After a pixel's calls the pen is down exactly when the pixel is ink. */
  lemma PixelPenState(pixel: bool, x: int, y: int, d: bool)
    ensures PenAfter(PixelPlan(pixel, x, y, d), d) == pixel
    ensures LowersOnlyWhenUp(PixelPlan(pixel, x, y, d), d)
  {
    var px := PixelPlan(pixel, x, y, d);
    var g := Emit(GotoScreen(Point(x, y)));
    var g' := Emit(GotoScreen(Point(x + 1, y)));
    var e: Plan := [];
    if pixel && !d {
      assert px == e + [g] + [Emit(PenDown)] + [Pause(1)] + [g] + [g'];
      PenAfterSnoc(e, g, d);
      PenAfterSnoc(e + [g], Emit(PenDown), d);
      PenAfterSnoc(e + [g] + [Emit(PenDown)], Pause(1), d);
      PenAfterSnoc(e + [g] + [Emit(PenDown)] + [Pause(1)], g, d);
      PenAfterSnoc(e + [g] + [Emit(PenDown)] + [Pause(1)] + [g], g', d);
      assert px[..1] == e + [g];
      forall i | 0 <= i < |px| && px[i] == Emit(PenDown) ensures !PenAfter(px[..i], d) {
        assert i == 1;
      }
    } else if pixel {
      assert px == e + [g] + [g'];
      PenAfterSnoc(e, g, d);
      PenAfterSnoc(e + [g], g', d);
    } else if d {
      assert px == e + [Emit(PenUp)] + [Pause(1)];
      PenAfterSnoc(e, Emit(PenUp), d);
      PenAfterSnoc(e + [Emit(PenUp)], Pause(1), d);
    }
  }

  lemma {:induction false} ScanPenState(row: seq<bool>, y: int, n: nat)
    requires n <= |row|
    ensures PenAfter(ScanPlan(row, y, n), false) == DownAfter(row, n)
    ensures LowersOnlyWhenUp(ScanPlan(row, y, n), false)
  {
    if n > 0 {
      ScanPenState(row, y, n - 1);
      var pre := ScanPlan(row, y, n - 1);
      var d := DownAfter(row, n - 1);
      var px := PixelPlan(row[n - 1], n - 1, y, d);
      PenAfterAppend(pre, px, false);
      PixelPenState(row[n - 1], n - 1, y, d);
      LowersOnlyWhenUpAppend(pre, px, false);
    }
  }

  lemma RowPenState(row: seq<bool>, y: int, down: bool)
    ensures !PenAfter(RowPlan(row, y), down)
    ensures LowersOnlyWhenUp(RowPlan(row, y), false)
  {
    var scan := ScanPlan(row, y, |row|);
    var e: Plan := [];
    var tail: Plan := [Emit(PenUp), Pause(5)];
    assert tail == e + [Emit(PenUp)] + [Pause(5)];
    PenAfterSnoc(e, Emit(PenUp), PenAfter(scan, down));
    PenAfterSnoc(e + [Emit(PenUp)], Pause(5), PenAfter(scan, down));
    PenAfterAppend(scan, tail, down);
    ScanPenState(row, y, |row|);
    LowersOnlyWhenUpAppend(scan, tail, false);
  }

  /** `draw_bitmap` never leaves the pen down at a row boundary, so in
      particular not at the end, for every bitmap, empty or all-false
      included; and it never lowers a pen that is already down. */
  lemma {:induction false} BitmapLeavesPenUp(bitmap: seq<seq<bool>>, n: nat)
    requires n <= |bitmap|
    ensures !PenAfter(BitmapPlan(bitmap, n), false)
    ensures LowersOnlyWhenUp(BitmapPlan(bitmap, n), false)
  {
    if n > 0 {
      BitmapLeavesPenUp(bitmap, n - 1);
      var pre := BitmapPlan(bitmap, n - 1);
      var row := RowPlan(bitmap[n - 1], n - 1);
      PenAfterAppend(pre, row, false);
      RowPenState(bitmap[n - 1], n - 1, false);
      LowersOnlyWhenUpAppend(pre, row, false);
    }
  }

  // --- run counting ---

  /** Whether a maximal run of ink starts at pixel `i`. */
  predicate RunStartsAt(row: seq<bool>, i: nat)
    requires i < |row|
  {
    row[i] && (i == 0 || !row[i - 1])
  }

  /** Number of maximal runs of ink among the first `n` pixels. */
  function Runs(row: seq<bool>, n: nat): nat
    requires n <= |row|
  {
    if n == 0 then 0 else Runs(row, n - 1) + (if RunStartsAt(row, n - 1) then 1 else 0)
  }

  /** Number of ink pixels among the first `n` pixels. */
  function Ink(row: seq<bool>, n: nat): nat
    requires n <= |row|
  {
    if n == 0 then 0 else Ink(row, n - 1) + (if row[n - 1] then 1 else 0)
  }

  /** Lowerings and screen moves made for one pixel. */
  lemma PixelCounts(pixel: bool, x: int, y: int, d: bool)
    ensures CountIf(PixelPlan(pixel, x, y, d), IsPenDown) == (if pixel && !d then 1 else 0)
    ensures CountIf(PixelPlan(pixel, x, y, d), IsScreenMove) == (if pixel then (if d then 2 else 3) else 0)
  {
    var g := Emit(GotoScreen(Point(x, y)));
    var g' := Emit(GotoScreen(Point(x + 1, y)));
    var e: Plan := [];
    var px := PixelPlan(pixel, x, y, d);
    if pixel && !d {
      assert px == e + [g] + [Emit(PenDown)] + [Pause(1)] + [g] + [g'];
      CountIfSnoc(e, g, IsPenDown); CountIfSnoc(e, g, IsScreenMove);
      CountIfSnoc(e + [g], Emit(PenDown), IsPenDown); CountIfSnoc(e + [g], Emit(PenDown), IsScreenMove);
      CountIfSnoc(e + [g] + [Emit(PenDown)], Pause(1), IsPenDown);
      CountIfSnoc(e + [g] + [Emit(PenDown)], Pause(1), IsScreenMove);
      CountIfSnoc(e + [g] + [Emit(PenDown)] + [Pause(1)], g, IsPenDown);
      CountIfSnoc(e + [g] + [Emit(PenDown)] + [Pause(1)], g, IsScreenMove);
      CountIfSnoc(e + [g] + [Emit(PenDown)] + [Pause(1)] + [g], g', IsPenDown);
      CountIfSnoc(e + [g] + [Emit(PenDown)] + [Pause(1)] + [g], g', IsScreenMove);
    } else if pixel {
      assert px == e + [g] + [g'];
      CountIfSnoc(e, g, IsPenDown); CountIfSnoc(e, g, IsScreenMove);
      CountIfSnoc(e + [g], g', IsPenDown); CountIfSnoc(e + [g], g', IsScreenMove);
    } else if d {
      assert px == e + [Emit(PenUp)] + [Pause(1)];
      CountIfSnoc(e, Emit(PenUp), IsPenDown); CountIfSnoc(e, Emit(PenUp), IsScreenMove);
      CountIfSnoc(e + [Emit(PenUp)], Pause(1), IsPenDown);
      CountIfSnoc(e + [Emit(PenUp)], Pause(1), IsScreenMove);
    }
  }

  lemma {:induction false} ScanCounts(row: seq<bool>, y: int, n: nat)
    requires n <= |row|
    ensures CountIf(ScanPlan(row, y, n), IsPenDown) == Runs(row, n)
    ensures CountIf(ScanPlan(row, y, n), IsScreenMove) == 2 * Ink(row, n) + Runs(row, n)
  {
    if n > 0 {
      ScanCounts(row, y, n - 1);
      var px := PixelPlan(row[n - 1], n - 1, y, DownAfter(row, n - 1));
      CountIfAppend(ScanPlan(row, y, n - 1), px, IsPenDown);
      CountIfAppend(ScanPlan(row, y, n - 1), px, IsScreenMove);
      PixelCounts(row[n - 1], n - 1, y, DownAfter(row, n - 1));
    }
  }

  /** In each row `draw_bitmap` lowers the pen once per maximal run of ink,
      and moves twice per ink pixel plus once per run (the approach move). */
  lemma RowCounts(row: seq<bool>, y: int)
    ensures CountIf(RowPlan(row, y), IsPenDown) == Runs(row, |row|)
    ensures CountIf(RowPlan(row, y), IsScreenMove) == 2 * Ink(row, |row|) + Runs(row, |row|)
    ensures CountIf(RowPlan(row, y), IsPenUp) >= 1
  {
    var scan := ScanPlan(row, y, |row|);
    assert RowPlan(row, y) == scan + [Emit(PenUp)] + [Pause(5)];
    ScanCounts(row, y, |row|);
    CountIfSnoc(scan, Emit(PenUp), IsPenDown);
    CountIfSnoc(scan, Emit(PenUp), IsScreenMove);
    CountIfSnoc(scan, Emit(PenUp), IsPenUp);
    CountIfSnoc(scan + [Emit(PenUp)], Pause(5), IsPenDown);
    CountIfSnoc(scan + [Emit(PenUp)], Pause(5), IsScreenMove);
    CountIfSnoc(scan + [Emit(PenUp)], Pause(5), IsPenUp);
  }

  lemma {:induction false} BlankScan(row: seq<bool>, y: int, n: nat)
    requires n <= |row|
    requires forall i :: 0 <= i < n ==> !row[i]
    ensures ScanPlan(row, y, n) == []
  {
    if n > 0 {
      BlankScan(row, y, n - 1);
    }
  }

  /** A row is all background exactly when its calls are a single lift
      (and the row pause): no move and no lowering. */
  lemma BlankRow(row: seq<bool>, y: int)
    ensures RowPlan(row, y) == [Emit(PenUp), Pause(5)] <==> forall i :: 0 <= i < |row| ==> !row[i]
  {
    if forall i :: 0 <= i < |row| ==> !row[i] {
      BlankScan(row, y, |row|);
    } else {
      var i :| 0 <= i < |row| && row[i];
      RunsPositive(row, i, |row|);
      RowCounts(row, y);
      var e: Plan := [];
      CountIfSnoc(e, Emit(PenUp), IsPenDown);
      CountIfSnoc(e + [Emit(PenUp)], Pause(5), IsPenDown);
      assert e + [Emit(PenUp)] + [Pause(5)] == [Emit(PenUp), Pause(5)];
    }
  }

  lemma {:induction false} RunsPositive(row: seq<bool>, i: nat, n: nat)
    requires i < n <= |row| && row[i]
    ensures Runs(row, n) >= 1
  {
    if n - 1 > i {
      RunsPositive(row, i, n - 1);
    } else if !RunStartsAt(row, i) {
      RunsPositive(row, i - 1, i);
    }
  }

  // --- the single-run scenario ---

  /** The moves made across a run of ink from column `a` up to `b`. */
  function RunMoves(a: int, b: int, y: int): Plan
    decreases b - a
  {
    if b <= a then [] else RunMoves(a, b - 1, y) + [Emit(GotoScreen(Point(b - 1, y))), Emit(GotoScreen(Point(b, y)))]
  }

  lemma {:induction false} SingleRunScan(row: seq<bool>, y: int, a: nat, b: nat, n: nat)
    requires a < b <= |row|
    requires forall i :: 0 <= i < |row| ==> (row[i] <==> a <= i < b)
    requires a < n <= b
    ensures ScanPlan(row, y, n) ==
      [Emit(GotoScreen(Point(a, y))), Emit(PenDown), Pause(1)] + RunMoves(a, n, y)
  {
    if n == a + 1 {
      BlankScan(row, y, a);
      assert RunMoves(a, a, y) == [];
    } else {
      SingleRunScan(row, y, a, b, n - 1);
    }
  }

  /** A row whose ink is the single run [a, b) is drawn as: approach (a, y),
      lower, the run's moves, then the lift at the end of the run (if the
      run ends inside the row) and the unconditional lift of the row. */
  lemma SingleRunRow(row: seq<bool>, y: int, a: nat, b: nat)
    requires a < b <= |row|
    requires forall i :: 0 <= i < |row| ==> (row[i] <==> a <= i < b)
    ensures RowPlan(row, y) ==
      [Emit(GotoScreen(Point(a, y))), Emit(PenDown), Pause(1)] + RunMoves(a, b, y)
      + (if b < |row| then [Emit(PenUp), Pause(1)] else [])
      + [Emit(PenUp), Pause(5)]
  {
    SingleRunScan(row, y, a, b, b);
    if b < |row| {
      SingleRunTail(row, y, a, b, |row|);
    }
  }

  /** Such a row lowers the pen exactly once. */
  lemma SingleRunRowDowns(row: seq<bool>, y: int, a: nat, b: nat)
    requires a < b <= |row|
    requires forall i :: 0 <= i < |row| ==> (row[i] <==> a <= i < b)
    ensures CountIf(RowPlan(row, y), IsPenDown) == 1
  {
    RowCounts(row, y);
    RunsOfSingleRun(row, a, b, |row|);
  }

  lemma {:induction false} SingleRunTail(row: seq<bool>, y: int, a: nat, b: nat, n: nat)
    requires a < b < n <= |row|
    requires forall i :: 0 <= i < |row| ==> (row[i] <==> a <= i < b)
    ensures ScanPlan(row, y, n) == ScanPlan(row, y, b) + [Emit(PenUp), Pause(1)]
  {
    assert !row[n - 1];
    if n == b + 1 {
      assert DownAfter(row, b);
      assert PixelPlan(false, b, y, true) == [Emit(PenUp), Pause(1)];
    } else {
      SingleRunTail(row, y, a, b, n - 1);
      assert !DownAfter(row, n - 1);
      assert PixelPlan(false, n - 1, y, false) == [];
      assert ScanPlan(row, y, n) == ScanPlan(row, y, n - 1) + [];
    }
  }

  lemma {:induction false} RunsOfSingleRun(row: seq<bool>, a: nat, b: nat, n: nat)
    requires a < b <= |row| && n <= |row|
    requires forall i :: 0 <= i < |row| ==> (row[i] <==> a <= i < b)
    ensures Runs(row, n) == if n <= a then 0 else 1
  {
    if n > 0 {
      RunsOfSingleRun(row, a, b, n - 1);
    }
  }

  /** The end-to-end example: a row 10 whose ink is columns 20 to 29 is
      drawn as approach (20, 10), lower, overshoot to (21, 10), moves
      through column 29, then lifts: exactly one lowering. */
  lemma InkRunExample(row: seq<bool>)
    requires |row| == ScreenWidth
    requires forall i :: 0 <= i < |row| ==> (row[i] <==> 20 <= i <= 29)
    ensures |RowPlan(row, 10)| == 27
    ensures RowPlan(row, 10)[..5] ==
      [Emit(GotoScreen(Point(20, 10))), Emit(PenDown), Pause(1),
       Emit(GotoScreen(Point(20, 10))), Emit(GotoScreen(Point(21, 10)))]
    ensures RowPlan(row, 10)[|RowPlan(row, 10)| - 4..] == [Emit(PenUp), Pause(1), Emit(PenUp), Pause(5)]
    ensures CountIf(RowPlan(row, 10), IsPenDown) == 1
  {
    var head: Plan := [Emit(GotoScreen(Point(20, 10))), Emit(PenDown), Pause(1)];
    var moves := RunMoves(20, 30, 10);
    var tail: Plan := [Emit(PenUp), Pause(1), Emit(PenUp), Pause(5)];
    assert RowPlan(row, 10) == head + moves + tail by {
      SingleRunRow(row, 10, 20, 30);
      assert [Emit(PenUp), Pause(1)] + [Emit(PenUp), Pause(5)] == tail;
    }
    RunMovesPrefix(20, 30, 10);
    assert (head + moves + tail)[..5] == head + moves[..2];
    assert (head + moves + tail)[|head + moves + tail| - 4..] == tail;
    SingleRunRowDowns(row, 10, 20, 30);
  }

  lemma {:induction false} RunMovesPrefix(a: int, b: int, y: int)
    requires a < b
    ensures |RunMoves(a, b, y)| == 2 * (b - a)
    ensures RunMoves(a, b, y)[..2] == [Emit(GotoScreen(Point(a, y))), Emit(GotoScreen(Point(a + 1, y)))]
    decreases b - a
  {
    if b - 1 > a {
      RunMovesPrefix(a, b - 1, y);
    }
  }

  // ---------------------------------------------------------------------
  // draw_line

  /** Rust's `/` on `i32` for a positive divisor: the quotient truncated
      toward zero (Dafny's own `/` rounds toward negative infinity). */
  function TruncDiv(a: int, b: int): (q: int)
    requires b > 0
  {
    if a >= 0 then a / b else -((-a) / b)
  }

  /** Truncating division: `q * b` has the sign of `a` (or is zero) and
      falls short of `a` in magnitude by less than `b`. */
  lemma TruncDivSpec(a: int, b: int)
    requires b > 0
    ensures var q := TruncDiv(a, b);
            Abs(q * b) <= Abs(a) < Abs(q * b) + b &&
            (a >= 0 ==> q >= 0) && (a <= 0 ==> q <= 0)
  {
    var n := Abs(a);
    var m := n / b;
    assert n == m * b + n % b && 0 <= n % b < b;
    assert m >= 0;
    MulNonNegative(m, b);
    if a < 0 {
      assert TruncDiv(a, b) == -m;
      assert TruncDiv(a, b) * b == -(m * b);
    } else {
      assert TruncDiv(a, b) == m;
    }
  }

  lemma MulNonNegative(m: int, b: int)
    requires m >= 0 && b >= 0
    ensures m * b >= 0
  {
  }

  function Abs(a: int): nat { if a < 0 then -a else a }

  datatype PenError = DivisionByZero

  /** The moves of a line: `start + delta * i` for `i` in `0..steps`. */
  function LineMoves(start: Point, dx: int, dy: int, steps: nat): Plan
  {
    if steps == 0 then []
    else LineMoves(start, dx, dy, steps - 1) + [Emit(Goto(Point(start.x + dx * (steps - 1), start.y + dy * (steps - 1))))]
  }

  /** `v` lies between `a` and `b`, both included. */
  predicate Between(v: int, a: int, b: int)
  {
    (a <= v <= b) || (b <= v <= a)
  }

  /** `Pen::draw_line` in digitizer coordinates. `steps` is the number of
      segments the source derives from the Euclidean length with floats;
      that computation yields 0 exactly when both endpoints coincide, and
      then the integer division panics. */
  function DrawLinePlan(p1: Point, p2: Point, steps: nat): (r: Result<Plan, PenError>)
    requires steps == 0 <==> p1 == p2
    ensures r.Err? <==> p1 == p2
    ensures r.Ok? ==> |r.value| == steps + 4
    ensures r.Ok? ==> r.value[..3] == [Emit(PenUp), Emit(Goto(p1)), Emit(PenDown)]
    ensures r.Ok? ==> r.value[|r.value| - 1] == Emit(PenUp)
    ensures r.Ok? ==> forall i :: 3 <= i < |r.value| - 1 ==>
              r.value[i] == Emit(Goto(Point(p1.x + TruncDiv(p2.x - p1.x, steps) * (i - 3),
                                            p1.y + TruncDiv(p2.y - p1.y, steps) * (i - 3))))
    ensures r.Ok? ==> forall i :: 3 <= i < |r.value| - 1 ==>
              r.value[i].Emit? && r.value[i].payload.Goto? &&
              Between(r.value[i].payload.p.x, p1.x, p2.x) && Between(r.value[i].payload.p.y, p1.y, p2.y)
  {
    if steps == 0 then Err(DivisionByZero)
    else
      var dx := TruncDiv(p2.x - p1.x, steps);
      var dy := TruncDiv(p2.y - p1.y, steps);
      var moves := LineMoves(p1, dx, dy, steps);
      LineMovesBetween(p1, p2, steps, steps);
      LineMovesAt(p1, dx, dy, steps);
      Ok([Emit(PenUp), Emit(Goto(p1)), Emit(PenDown)] + moves + [Emit(PenUp)])
  }

  /** Move `i` of a line is `start + delta * i`. */
  lemma {:induction false} LineMovesAt(start: Point, dx: int, dy: int, n: nat)
    ensures var m := LineMoves(start, dx, dy, n);
            |m| == n && forall i :: 0 <= i < n ==> m[i] == Emit(Goto(Point(start.x + dx * i, start.y + dy * i)))
  {
    if n > 0 {
      LineMovesAt(start, dx, dy, n - 1);
    }
  }

  /** The pen never reaches the far endpoint: every move falls short of
      `p2` because the step is truncated and the last move is number
      `steps - 1`. */
  lemma LineStopsShort(p1: Point, p2: Point, steps: nat)
    requires steps == 0 <==> p1 == p2
    requires p1 != p2
    ensures forall i :: 3 <= i < |DrawLinePlan(p1, p2, steps).value| - 1 ==>
              DrawLinePlan(p1, p2, steps).value[i] != Emit(Goto(p2))
  {
    var plan := DrawLinePlan(p1, p2, steps).value;
    forall i | 3 <= i < |plan| - 1
      ensures plan[i] != Emit(Goto(p2))
    {
      var k := i - 3;
      if p1.x != p2.x {
        FallsShort(p2.x - p1.x, steps, k);
      } else {
        FallsShort(p2.y - p1.y, steps, k);
      }
    }
  }

  /** `TruncDiv(d, steps) * k` differs from a nonzero `d` for `k < steps`. */
  lemma FallsShort(d: int, steps: nat, k: nat)
    requires d != 0 && k < steps
    ensures TruncDiv(d, steps) * k != d
  {
    var q := TruncDiv(d, steps);
    TruncDivSpec(d, steps);
    if q == 0 {
    } else if q > 0 {
      MulMono(q, k, steps - 1);
      assert q * (steps - 1) == q * steps - q;
    } else {
      MulMono(-q, k, steps - 1);
      assert (-q) * (steps - 1) == (-q) * steps - (-q);
      assert q * k == -((-q) * k);
      assert q * steps == -((-q) * steps);
    }
  }

  lemma StepBetween(a: int, b: int, steps: nat, i: nat)
    requires 0 <= i < steps
    ensures Between(a + TruncDiv(b - a, steps) * i, a, b)
  {
    var q := TruncDiv(b - a, steps);
    TruncDivSpec(b - a, steps);
    if b - a >= 0 {
      MulMono(q, i, steps);
    } else {
      MulMono(-q, i, steps);
      assert q * i == -((-q) * i);
      assert q * steps == -((-q) * steps);
    }
  }

  lemma MulMono(q: nat, i: nat, n: nat)
    requires i <= n
    ensures 0 <= q * i <= q * n
  {
  }

  lemma {:induction false} LineMovesBetween(p1: Point, p2: Point, steps: nat, n: nat)
    requires 0 < steps && n <= steps
    ensures var m := LineMoves(p1, TruncDiv(p2.x - p1.x, steps), TruncDiv(p2.y - p1.y, steps), n);
            |m| == n &&
            forall i :: 0 <= i < n ==>
              (m[i].Emit? && m[i].payload.Goto? &&
               Between(m[i].payload.p.x, p1.x, p2.x) && Between(m[i].payload.p.y, p1.y, p2.y))
  {
    if n > 0 {
      LineMovesBetween(p1, p2, steps, n - 1);
      StepBetween(p1.x, p2.x, steps, n - 1);
      StepBetween(p1.y, p2.y, steps, n - 1);
    }
  }

  /** A line lowers the pen once and ends with it up. */
  lemma DrawLinePenState(p1: Point, p2: Point, steps: nat)
    requires steps == 0 <==> p1 == p2
    requires p1 != p2
    ensures !PenAfter(DrawLinePlan(p1, p2, steps).value, false)
    ensures CountIf(DrawLinePlan(p1, p2, steps).value, IsPenDown) == 1
  {
    var plan := DrawLinePlan(p1, p2, steps).value;
    var head := plan[..3];
    var mid := plan[3..|plan| - 1];
    var last := plan[|plan| - 1..];
    assert plan == head + mid + last;
    NoDownsInMoves(mid);
    CountIfAppend(head + mid, last, IsPenDown);
    CountIfAppend(head, mid, IsPenDown);
    assert head[..2][..1] == [Emit(PenUp)];
    assert head[..2][..1][..0] == [];
    assert last[..0] == [];
    PenAfterAppend(head + mid, last, false);
  }

  lemma {:induction false} NoDownsInMoves(m: Plan)
    requires forall i :: 0 <= i < |m| ==> m[i].Emit? && m[i].payload.Goto?
    ensures CountIf(m, IsPenDown) == 0
  {
    if |m| > 0 {
      NoDownsInMoves(m[..|m| - 1]);
    }
  }

  /** `draw_line_screen`: both endpoints converted with `screen_to_input`,
      then a line in digitizer coordinates from the first converted point
      towards the second. */
  function DrawLineScreenPlan(p1: Point, p2: Point, toInput: Point -> Point, steps: nat): (r: Result<Plan, PenError>)
    requires steps == 0 <==> toInput(p1) == toInput(p2)
    ensures r.Err? <==> toInput(p1) == toInput(p2)
    ensures r.Ok? ==> |r.value| == steps + 4
    ensures r.Ok? ==> r.value[..3] == [Emit(PenUp), Emit(Goto(toInput(p1))), Emit(PenDown)]
    ensures r.Ok? ==> r.value[|r.value| - 1] == Emit(PenUp)
    ensures r.Ok? ==> forall i :: 3 <= i < |r.value| - 1 ==>
              var a, b := toInput(p1), toInput(p2);
              r.value[i] == Emit(Goto(Point(a.x + TruncDiv(b.x - a.x, steps) * (i - 3),
                                            a.y + TruncDiv(b.y - a.y, steps) * (i - 3))))
  {
    DrawLinePlan(toInput(p1), toInput(p2), steps)
  }

  /** A screen line, like any line, lowers the pen once, leaves it up,
      and keeps every move inside the rectangle of the converted endpoints
      without reaching the second one. */
  lemma DrawLineScreenPenState(p1: Point, p2: Point, toInput: Point -> Point, steps: nat)
    requires steps == 0 <==> toInput(p1) == toInput(p2)
    requires toInput(p1) != toInput(p2)
    ensures var plan := DrawLineScreenPlan(p1, p2, toInput, steps).value;
            !PenAfter(plan, false) && CountIf(plan, IsPenDown) == 1 &&
            forall i :: 3 <= i < |plan| - 1 ==>
              plan[i].Emit? && plan[i].payload.Goto? && plan[i] != Emit(Goto(toInput(p2))) &&
              Between(plan[i].payload.p.x, toInput(p1).x, toInput(p2).x) &&
              Between(plan[i].payload.p.y, toInput(p1).y, toInput(p2).y)
  {
    DrawLinePenState(toInput(p1), toInput(p2), steps);
    LineStopsShort(toInput(p1), toInput(p2), steps);
  }
}
