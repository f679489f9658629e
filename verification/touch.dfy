/**
 * The touch trigger of `src/touch.rs`: the program waits until a finger is
 * lifted inside the upper-right corner of the screen (the corner where the
 * touch panel reports x > 1360 and y > 1810).
 *
 * The device's event stream is unbounded; the model reads a finite prefix
 * of it, flattened across `fetch_events` batches (the batching does not
 * change what the loop sees). `WaitForTrigger` returns the index of the
 * event that ends the wait, or `None` when the prefix holds no such event
 * and the program is still waiting.
 */
module Touch {
  import opened Common
  import opened Emission

  /** `ABS_MT_POSITION_X`, `ABS_MT_POSITION_Y` and `ABS_MT_TRACKING_ID`. */
  const PositionXCode: int := 53
  const PositionYCode: int := 54
  const TrackingIdCode: int := 57

  /** The tracking id a lifted finger reports. */
  const Lifted: int := -1

  /** The trigger zone: strictly right of x = 1360 and below y = 1810. */
  const ZoneLeft: int := 1360
  const ZoneTop: int := 1810

  datatype Position = Position(x: int, y: int)

  /** The position the loop holds after reading `events`: the last x and
      the last y reported, each 0 until one is reported. The event type is
      never looked at, only the code. */
  function PositionAfter(events: seq<InputEvent>): Position
  {
    if |events| == 0 then Position(0, 0)
    else
      var p := PositionAfter(events[..|events| - 1]);
      var e := events[|events| - 1];
      Position(if e.code == PositionXCode then e.value else p.x,
               if e.code == PositionYCode then e.value else p.y)
  }

  predicate InZone(p: Position)
  {
    p.x > ZoneLeft && p.y > ZoneTop
  }

  /** Event `i` ends the wait: it reports a lifted finger while the last
      position read lies in the zone. */
  predicate Triggers(events: seq<InputEvent>, i: nat)
    requires i < |events|
  {
    events[i].code == TrackingIdCode && events[i].value == Lifted && InZone(PositionAfter(events[..i]))
  }

  /** `Touch::wait_for_trigger`: the index of the first event that ends
      the wait, or `None` if no event of the prefix does. */
  method WaitForTrigger(events: seq<InputEvent>) returns (r: Option<nat>)
    ensures r.Some? ==> r.value < |events| && Triggers(events, r.value)
    ensures r.Some? ==> forall j :: 0 <= j < r.value ==> !Triggers(events, j)
    ensures r.None? <==> forall j :: 0 <= j < |events| ==> !Triggers(events, j)
  {
    var positionX := 0;
    var positionY := 0;
    var i := 0;
    while i < |events|
      invariant i <= |events|
      invariant Position(positionX, positionY) == PositionAfter(events[..i])
      invariant forall j :: 0 <= j < i ==> !Triggers(events, j)
    {
      var event := events[i];
      assert events[..i + 1][..i] == events[..i];
      if event.code == PositionXCode {
        positionX := event.value;
      }
      if event.code == PositionYCode {
        positionY := event.value;
      }
      if event.code == TrackingIdCode {
        if event.value == Lifted {
          if positionX > ZoneLeft && positionY > ZoneTop {
            assert Position(positionX, positionY) == PositionAfter(events[..i]);
            assert Triggers(events, i);
            return Some(i);
          }
        }
      }
      i := i + 1;
    }
    return None;
  }

  // ---------------------------------------------------------------------
  // Properties

  /** The position depends on codes and values only, never on the type. */
  lemma {:induction false} PositionIgnoresType(a: seq<InputEvent>, b: seq<InputEvent>)
    requires |a| == |b|
    requires forall i :: 0 <= i < |a| ==> a[i].code == b[i].code && a[i].value == b[i].value
    ensures PositionAfter(a) == PositionAfter(b)
  {
    if |a| > 0 {
      PositionIgnoresType(a[..|a| - 1], b[..|b| - 1]);
    }
  }

  /** So whether an event ends the wait does not depend on event types. */
  lemma TriggerIgnoresType(a: seq<InputEvent>, b: seq<InputEvent>, i: nat)
    requires |a| == |b| && i < |a|
    requires forall j :: 0 <= j < |a| ==> a[j].code == b[j].code && a[j].value == b[j].value
    ensures Triggers(a, i) <==> Triggers(b, i)
  {
    PositionIgnoresType(a[..i], b[..i]);
  }

  /** Events with other codes leave the position as it was: a position
      read before a lift is still used at a later lift. */
  lemma {:induction false} PositionKeptByOtherCodes(a: seq<InputEvent>, b: seq<InputEvent>)
    requires forall i :: 0 <= i < |b| ==> b[i].code != PositionXCode && b[i].code != PositionYCode
    ensures PositionAfter(a + b) == PositionAfter(a)
  {
    if |b| == 0 {
      assert a + b == a;
    } else {
      assert (a + b)[..|a + b| - 1] == a + b[..|b| - 1];
      PositionKeptByOtherCodes(a, b[..|b| - 1]);
    }
  }

  /** The value of the last event of `events` with code `code`, if any. */
  function LastReport(events: seq<InputEvent>, code: int): Option<int>
  {
    if |events| == 0 then None
    else if events[|events| - 1].code == code then Some(events[|events| - 1].value)
    else LastReport(events[..|events| - 1], code)
  }

  function OrZero(v: Option<int>): int
  {
    match v
    case None => 0
    case Some(x) => x
  }

  /** The loop's position is the last x and y reported, 0 where none was. */
  lemma {:induction false} PositionIsLastReport(events: seq<InputEvent>)
    ensures PositionAfter(events) ==
            Position(OrZero(LastReport(events, PositionXCode)), OrZero(LastReport(events, PositionYCode)))
  {
    if |events| > 0 {
      PositionIsLastReport(events[..|events| - 1]);
    }
  }

  /** What `LastReport` finds: nothing exactly when no event carries the
      code, and otherwise the value of an event with no later one like it. */
  lemma {:induction false} LastReportSpec(events: seq<InputEvent>, code: int)
    ensures LastReport(events, code).None? <==> forall j :: 0 <= j < |events| ==> events[j].code != code
    ensures LastReport(events, code).Some? ==>
            exists j :: 0 <= j < |events| && events[j].code == code && events[j].value == LastReport(events, code).value &&
                        forall l :: j < l < |events| ==> events[l].code != code
  {
    if |events| > 0 {
      var n := |events| - 1;
      var init := events[..n];
      LastReportSpec(init, code);
      if events[n].code != code {
        assert forall j :: 0 <= j < n ==> events[j] == init[j];
        if LastReport(init, code).Some? {
          var j :| 0 <= j < n && init[j].code == code && init[j].value == LastReport(init, code).value &&
                   forall l :: j < l < n ==> init[l].code != code;
          assert events[j] == init[j];
        }
      }
    }
  }

  /** A lift never ends the wait before x has been reported: the starting
      position (0, 0) lies outside the zone. */
  lemma NoTriggerWithoutReports(events: seq<InputEvent>, i: nat)
    requires i < |events|
    requires forall j :: 0 <= j < i ==> events[j].code != PositionXCode
    ensures !Triggers(events, i)
  {
    PositionIsLastReport(events[..i]);
    LastReportSpec(events[..i], PositionXCode);
  }

  /** A lift that ends the wait was preceded by a report of x beyond 1360
      and one of y beyond 1810, each the last of its kind. */
  lemma TriggerNeedsReports(events: seq<InputEvent>, i: nat)
    requires i < |events| && Triggers(events, i)
    ensures exists j :: 0 <= j < i && events[j].code == PositionXCode && events[j].value > ZoneLeft &&
                        forall l :: j < l < i ==> events[l].code != PositionXCode
    ensures exists j :: 0 <= j < i && events[j].code == PositionYCode && events[j].value > ZoneTop &&
                        forall l :: j < l < i ==> events[l].code != PositionYCode
  {
    var pre := events[..i];
    PositionIsLastReport(pre);
    LastReportSpec(pre, PositionXCode);
    LastReportSpec(pre, PositionYCode);
    var jx :| 0 <= jx < i && pre[jx].code == PositionXCode && pre[jx].value == LastReport(pre, PositionXCode).value &&
              forall l :: jx < l < i ==> pre[l].code != PositionXCode;
    assert events[jx] == pre[jx];
    assert forall l :: jx < l < i ==> events[l] == pre[l];
    var jy :| 0 <= jy < i && pre[jy].code == PositionYCode && pre[jy].value == LastReport(pre, PositionYCode).value &&
              forall l :: jy < l < i ==> pre[l].code != PositionYCode;
    assert events[jy] == pre[jy];
    assert forall l :: jy < l < i ==> events[l] == pre[l];
  }

  /** A concrete gesture: a finger put down at (1380, 1850) and lifted
      ends the wait at the lift, while a lift without the position
      reports does not. */
  lemma CornerTapExample()
    ensures var events := [InputEvent(EvAbs, PositionXCode, 1380), InputEvent(EvAbs, PositionYCode, 1850),
                           InputEvent(EvAbs, TrackingIdCode, Lifted)];
            Triggers(events, 2) && !Triggers(events, 0) && !Triggers(events, 1)
    ensures !Triggers([InputEvent(EvAbs, TrackingIdCode, Lifted)], 0)
  {
    var events := [InputEvent(EvAbs, PositionXCode, 1380), InputEvent(EvAbs, PositionYCode, 1850),
                   InputEvent(EvAbs, TrackingIdCode, Lifted)];
    assert events[..2][..1] == events[..1];
    assert events[..1][..0] == [];
    assert PositionAfter(events[..1]) == Position(1380, 0);
    assert PositionAfter(events[..2]) == Position(1380, 1850);
    assert [InputEvent(EvAbs, TrackingIdCode, Lifted)][..0] == [];
  }
}
