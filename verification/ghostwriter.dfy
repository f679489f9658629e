/**
 * The two assistant loops of `src/main.rs`, one round each.
 *
 * `ghostwriter` waits for the corner tap, captures the screen, asks the
 * model for an SVG and draws it with the pen, ticking off its progress with
 * four short status lines in the top-right corner. `text_assistant` does the
 * same with the keyboard: it types '.' marks while it works and erases them
 * before typing the reply.
 *
 * What happens outside the tablet (how far the capture got, the API key
 * being set, what the HTTP request returns, whether the debug file could
 * be written, which device call fails) is an input of a round; a round
 * yields the device actions in order and how the round ended. Each round
 * is first planned as if every device call succeeded, then cut short at
 * the first call that fails, since every call in the loop ends it with `?`.
 */
module Ghostwriter {
  import opened Common
  import opened Emission
  import Pen
  import Keyboard
  import Util

  /** How a round ends: the loop goes round again, `main` returns `Ok`
      (`--no-submit`), or the loop ends with an error or a panic. */
  datatype RoundEnd = Continue | Stop | Fail

  /** How far taking the screenshot got: `Screenshot::new` failed, saving
      the PNG failed, encoding it in base64 failed, or all three worked. */
  datatype Capture = NoScreenshot | SaveFailed | EncodeFailed | Captured

  /** What the request to the model gave. */
  datatype Response =
    | RequestFailed           // an HTTP error status or a transport error
    | UnreadableBody          // the body is not JSON
    | UnusableReply           // no content string, or not the expected JSON inside it
    | Reply(payload: string)  // the "svg" or "text" field of the reply

  /** The world outside the device, as one round sees it. `debugWritten`
      is whether `ghostwriter` could write the debug bitmap file;
      `deviceFailsAt` is the number, counted from 0, of the first device
      action of the round whose writes fail, if any does. */
  datatype Outside = Outside(noSubmit: bool, capture: Capture, apiKeySet: bool, response: Response,
                             debugWritten: bool, deviceFailsAt: Option<nat>)

  datatype Round<A> = Round(actions: seq<A>, end: RoundEnd)

  /** No device action among the first `n` of the round fails. */
  predicate DeviceHolds(outside: Outside, n: nat)
  {
    outside.deviceFailsAt.None? || outside.deviceFailsAt.value >= n
  }

  /** A planned round on a device whose action number `k` fails: the
      actions up to and including that one are attempted, the last one cut
      short, and `?` ends the loop with the error. A device that fails only
      after the plan is done changes nothing. */
  function Interrupt<A>(planned: Round<A>, failsAt: Option<nat>): (r: Round<A>)
    ensures |r.actions| <= |planned.actions| && r.actions == planned.actions[..|r.actions|]
    ensures failsAt.None? || failsAt.value >= |planned.actions| ==> r == planned
    ensures failsAt.Some? && failsAt.value < |planned.actions| ==>
              r.end == Fail && |r.actions| == failsAt.value + 1
  {
    match failsAt
    case Some(k) => if k < |planned.actions| then Round(planned.actions[..k + 1], Fail) else planned
    case None => planned
  }

  // ---------------------------------------------------------------------
  // ghostwriter: status marks and the drawing

  /** The fallback this copy of `svg_to_bitmap` renders: full screen size,
      text lower on the page than in `src/util.rs`. */
  const FallbackSvg: string :=
    "<svg width='1404' height='1872' xmlns='http://www.w3.org/2000/svg'>" +
    "<text x='300' y='1285' font-family='Noto Sans' font-size='24'>ERROR!</text></svg>"

  /** A status line between two screen points. */
  datatype Line = Line(from: Pen.Point, to: Pen.Point)

  /** The four status lines: the two strokes of an X after the capture and
      after sending, a vertical after the reply, a horizontal when done. */
  const CapturedMark := Line(Pen.Point(1340, 5), Pen.Point(1390, 75))
  const SentMark := Line(Pen.Point(1340, 75), Pen.Point(1390, 5))
  const ReceivedMark := Line(Pen.Point(1365, 5), Pen.Point(1365, 75))
  const DoneMark := Line(Pen.Point(1330, 40), Pen.Point(1390, 40))

  datatype PenAction = Mark(line: Line) | Drawing(bitmap: seq<seq<bool>>)

  predicate OnScreen(p: Pen.Point)
  {
    0 <= p.x < Pen.ScreenWidth && 0 <= p.y < Pen.ScreenHeight
  }

  /** Every status line has distinct endpoints on the screen. (Whether the
      converted endpoints differ too depends on `screen_to_input`, which
      is not part of this model.) */
  lemma StatusMarksOnScreen(line: Line)
    requires line in {CapturedMark, SentMark, ReceivedMark, DoneMark}
    ensures OnScreen(line.from) && OnScreen(line.to) && line.from != line.to
    ensures line.from.x >= 1330 && line.to.x >= 1330 && line.from.y <= 75 && line.to.y <= 75
  {
  }

  /** One round of `ghostwriter` as planned, every device call succeeding.
      The first status line is drawn right after `Screenshot::new`, before
      the PNG is saved and encoded. `parse` and `render` stand for the SVG
      library, as in `Util.SvgToBitmap`. */
  function GhostwriterPlan<T(!new)>(outside: Outside, parse: string -> Option<T>, render: (T, nat, nat) -> seq<byte>)
    : (r: Round<PenAction>)
    requires forall t :: |render(t, Pen.ScreenWidth, Pen.ScreenHeight)| == Pen.ScreenWidth * Pen.ScreenHeight
    ensures r.end == Continue <==> !outside.noSubmit && outside.capture == Captured && outside.apiKeySet &&
                                   outside.response.Reply? &&
                                   (parse(outside.response.payload).Some? || parse(FallbackSvg).Some?) &&
                                   outside.debugWritten
    ensures r.end == Stop <==> outside.capture == Captured && outside.noSubmit
    ensures r.end == Stop ==> |r.actions| == 1
    ensures |r.actions| <= 5 && (r.end == Continue ==> |r.actions| == 5 && r.actions[3].Drawing?)
    ensures forall i :: 0 <= i < |r.actions| && r.actions[i].Mark? ==>
              r.actions[i].line in {CapturedMark, SentMark, ReceivedMark, DoneMark}
  {
    if outside.capture == NoScreenshot then Round([], Fail)
    else
      var marks := [Mark(CapturedMark)];
      if outside.capture != Captured then Round(marks, Fail)
      else if outside.noSubmit then Round(marks, Stop)
      else if !outside.apiKeySet then Round(marks, Fail)
      else
        var marks := marks + [Mark(SentMark)];
        match outside.response
        case RequestFailed => Round(marks, Fail)
        case UnreadableBody => Round(marks, Fail)
        case UnusableReply => Round(marks + [Mark(ReceivedMark)], Fail)
        case Reply(svg) =>
          var marks := marks + [Mark(ReceivedMark)];
          match Util.SvgToBitmap(svg, Pen.ScreenWidth, Pen.ScreenHeight, FallbackSvg, parse, render)
          case Err(_) => Round(marks, Fail)
          case Ok(bitmap) =>
            if !outside.debugWritten then Round(marks, Fail)
            else Round(marks + [Drawing(bitmap), Mark(DoneMark)], Continue)
  }

  /** One round of `ghostwriter`: the plan, cut short where the pen fails.
      It goes round again exactly when everything outside worked and none
      of the five drawing actions failed, and stops cleanly exactly on
      `--no-submit` after a capture whose status line was drawn. */
  function GhostwriterRound<T(!new)>(outside: Outside, parse: string -> Option<T>, render: (T, nat, nat) -> seq<byte>)
    : (r: Round<PenAction>)
    requires forall t :: |render(t, Pen.ScreenWidth, Pen.ScreenHeight)| == Pen.ScreenWidth * Pen.ScreenHeight
    ensures r.end == Continue <==> !outside.noSubmit && outside.capture == Captured && outside.apiKeySet &&
                                   outside.response.Reply? &&
                                   (parse(outside.response.payload).Some? || parse(FallbackSvg).Some?) &&
                                   outside.debugWritten && DeviceHolds(outside, 5)
    ensures r.end == Stop <==> outside.capture == Captured && outside.noSubmit && DeviceHolds(outside, 1)
    ensures |r.actions| <= 5 && (r.end == Continue ==> |r.actions| == 5 && r.actions[3].Drawing?)
    ensures forall i :: 0 <= i < |r.actions| && r.actions[i].Mark? ==>
              r.actions[i].line in {CapturedMark, SentMark, ReceivedMark, DoneMark}
  {
    var planned := GhostwriterPlan(outside, parse, render);
    var r := Interrupt(planned, outside.deviceFailsAt);
    assert forall i :: 0 <= i < |r.actions| ==> r.actions[i] == planned.actions[i];
    r
  }

  /** Number of status lines drawn in a round. */
  function MarkCount(actions: seq<PenAction>): nat
  {
    CountIf(actions, (a: PenAction) => a.Mark?)
  }

  /** The three status lines drawn before the reply is drawn, in order. */
  const Order: seq<PenAction> := [Mark(CapturedMark), Mark(SentMark), Mark(ReceivedMark)]

  /** How many of `Order` a round gets through. */
  function MarksReached(outside: Outside): nat
  {
    if outside.capture == NoScreenshot then 0
    else if outside.capture != Captured || outside.noSubmit || !outside.apiKeySet then 1
    else if outside.response.RequestFailed? || outside.response.UnreadableBody? then 2
    else 3
  }

  /** The shape of every planned round: a prefix of the three status lines, and
      in a full round the reply's bitmap, a full-screen grid, followed by
      the closing line. */
  lemma GhostwriterShape<T(!new)>(outside: Outside, parse: string -> Option<T>, render: (T, nat, nat) -> seq<byte>)
    requires forall t :: |render(t, Pen.ScreenWidth, Pen.ScreenHeight)| == Pen.ScreenWidth * Pen.ScreenHeight
    ensures var r := GhostwriterPlan(outside, parse, render);
            (r.end != Continue ==> r.actions == Order[..MarksReached(outside)]) &&
            (r.end == Continue ==> MarksReached(outside) == 3 && |r.actions| == 5 &&
                                   r.actions == Order + [Drawing(r.actions[3].bitmap), Mark(DoneMark)] &&
                                   |r.actions[3].bitmap| == Pen.ScreenHeight &&
                                   (forall y :: 0 <= y < Pen.ScreenHeight ==> |r.actions[3].bitmap[y]| == Pen.ScreenWidth))
  {
    assert Order[..1] == [Mark(CapturedMark)];
    assert Order[..2] == [Mark(CapturedMark), Mark(SentMark)];
    assert Order[..3] == Order;
  }

  lemma OrderMarks(k: nat)
    requires k <= 3
    ensures MarkCount(Order[..k]) == k
  {
    var isMark := (a: PenAction) => a.Mark?;
    if k > 0 {
      OrderMarks(k - 1);
      assert Order[..k] == Order[..k - 1] + [Order[k - 1]];
      CountIfSnoc(Order[..k - 1], Order[k - 1], isMark);
    } else {
      assert Order[..0] == [];
    }
  }

  /** The status lines tell how far a planned round got: one after the capture,
      two once the request is sent, three once a body is read, and the
      closing fourth only after the drawing. */
  lemma GhostwriterProgress<T(!new)>(outside: Outside, parse: string -> Option<T>, render: (T, nat, nat) -> seq<byte>)
    requires forall t :: |render(t, Pen.ScreenWidth, Pen.ScreenHeight)| == Pen.ScreenWidth * Pen.ScreenHeight
    ensures var r := GhostwriterPlan(outside, parse, render);
            MarkCount(r.actions) == MarksReached(outside) + (if r.end == Continue then 1 else 0)
  {
    var r := GhostwriterPlan(outside, parse, render);
    var isMark := (a: PenAction) => a.Mark?;
    GhostwriterShape(outside, parse, render);
    OrderMarks(MarksReached(outside));
    if r.end == Continue {
      var b := r.actions[3].bitmap;
      assert Order[..3] == Order;
      CountIfSnoc(Order, Drawing(b), isMark);
      CountIfSnoc(Order + [Drawing(b)], Mark(DoneMark), isMark);
      assert Order + [Drawing(b)] + [Mark(DoneMark)] == r.actions;
    }
  }

  /** The drawing loop written inline in `ghostwriter`: the same nested
      loops as `Pen::draw_bitmap`, so the same pen calls, for every
      bitmap. The pen flag lives across rows and is false between them. */
  method InlineDrawBitmap(bitmap: seq<seq<bool>>) returns (plan: Pen.Plan)
    ensures plan == Pen.BitmapPlan(bitmap, |bitmap|)
  {
    plan := [];
    var isPenDown := false;
    var y := 0;
    while y < |bitmap|
      invariant y <= |bitmap|
      invariant plan == Pen.BitmapPlan(bitmap, y)
      invariant !isPenDown
    {
      var rowCalls;
      rowCalls, isPenDown := InlineDrawRow(bitmap[y], y, isPenDown);
      plan := plan + rowCalls;
      y := y + 1;
    }
  }

  /** One row of the inline loop: entered and left with the pen up. */
  method InlineDrawRow(row: seq<bool>, y: int, down: bool) returns (rowCalls: Pen.Plan, isPenDown: bool)
    requires !down
    ensures rowCalls == Pen.RowPlan(row, y) && !isPenDown
  {
    rowCalls := [];
    isPenDown := down;
    var x := 0;
    while x < |row|
      invariant x <= |row|
      invariant rowCalls == Pen.ScanPlan(row, y, x)
      invariant isPenDown == Pen.DownAfter(row, x)
    {
      var calls: Pen.Plan := [];
      if row[x] {
        if !isPenDown {
          calls := calls + [Emit(Pen.GotoScreen(Pen.Point(x, y))), Emit(Pen.PenDown)];
          isPenDown := true;
          calls := calls + [Pause(1)];
        }
        calls := calls + [Emit(Pen.GotoScreen(Pen.Point(x, y))), Emit(Pen.GotoScreen(Pen.Point(x + 1, y)))];
      } else {
        if isPenDown {
          calls := calls + [Emit(Pen.PenUp)];
          isPenDown := false;
          calls := calls + [Pause(1)];
        }
      }
      assert calls == Pen.PixelPlan(row[x], x, y, Pen.DownAfter(row, x));
      rowCalls := rowCalls + calls;
      x := x + 1;
    }
    // the pen is lifted at the end of every row, down or not
    rowCalls := rowCalls + [Emit(Pen.PenUp)];
    isPenDown := false;
    rowCalls := rowCalls + [Pause(5)];
  }

  /** The bitmap a full round draws can be written to the debug file:
      it is non-empty and no row is wider than the first. */
  lemma DrawnBitmapWritable<T(!new)>(outside: Outside, parse: string -> Option<T>, render: (T, nat, nat) -> seq<byte>)
    requires forall t :: |render(t, Pen.ScreenWidth, Pen.ScreenHeight)| == Pen.ScreenWidth * Pen.ScreenHeight
    requires GhostwriterRound(outside, parse, render).end == Continue
    ensures var b := GhostwriterRound(outside, parse, render).actions[3].bitmap;
            |b| > 0 && Util.FitsFirstRow(b)
  {
    GhostwriterShape(outside, parse, render);
    assert GhostwriterRound(outside, parse, render) == GhostwriterPlan(outside, parse, render);
  }

  // ---------------------------------------------------------------------
  // text_assistant: progress dots

  datatype KeyboardCall = BodyStyle | TypeString(s: string)

  const Dot := TypeString(".")

  /** The string typed to erase the progress dots: seven backspaces. */
  const EraseDots: string := "\U{8}\U{8}\U{8}\U{8}\U{8}\U{8}\U{8}"

  /** `n` progress dots. */
  function Dots(n: nat): seq<KeyboardCall>
  {
    seq(n, _ => Dot)
  }

  /** The keystrokes of a keyboard call. */
  function CallPlan(call: KeyboardCall): Keyboard.KeyPlan
  {
    match call
    case BodyStyle => Keyboard.StylePlan(Keyboard.Body)
    case TypeString(s) => Keyboard.TypePlan(s)
  }

  function KeyPlanOf(calls: seq<KeyboardCall>): Keyboard.KeyPlan
  {
    FlatMap(CallPlan, calls)
  }

  /** One round of `text_assistant` as planned, every keyboard call
      succeeding: a dot before the screenshot and one after each of its
      three steps, then one before and two after the request. */
  function TextAssistantPlan(outside: Outside): (r: Round<KeyboardCall>)
    ensures r.end == Continue <==> !outside.noSubmit && outside.capture == Captured && outside.apiKeySet &&
                                   outside.response.Reply?
    ensures r.end == Stop <==> outside.capture == Captured && outside.noSubmit
    ensures r.end == Stop ==> |r.actions| == 5
    ensures |r.actions| <= 12 && (r.end == Continue ==> |r.actions| == 12)
  {
    var calls := [BodyStyle, Dot];
    match outside.capture
    case NoScreenshot => Round(calls, Fail)
    case SaveFailed => Round(calls + [Dot], Fail)
    case EncodeFailed => Round(calls + [Dot, Dot], Fail)
    case Captured =>
      var calls := calls + [Dot, Dot, Dot];
      if outside.noSubmit then Round(calls, Stop)
      else if !outside.apiKeySet then Round(calls, Fail)
      else
        var calls := calls + [Dot];
        match outside.response
        case RequestFailed => Round(calls, Fail)
        case UnreadableBody => Round(calls + [Dot], Fail)
        case UnusableReply => Round(calls + [Dot, Dot], Fail)
        case Reply(text) =>
          Round(calls + [Dot, Dot, BodyStyle, TypeString(EraseDots), TypeString(text), TypeString("\n\n")], Continue)
  }

  /** One round of `text_assistant`: the plan, cut short where the
      keyboard fails. It goes round again exactly when everything outside
      worked and none of the twelve keyboard calls failed, and stops
      cleanly exactly on `--no-submit` after a capture whose five calls
      went through. */
  function TextAssistantRound(outside: Outside): (r: Round<KeyboardCall>)
    ensures r.end == Continue <==> !outside.noSubmit && outside.capture == Captured && outside.apiKeySet &&
                                   outside.response.Reply? && DeviceHolds(outside, 12)
    ensures r.end == Stop <==> outside.capture == Captured && outside.noSubmit && DeviceHolds(outside, 5)
    ensures |r.actions| <= |TextAssistantPlan(outside).actions| && r.actions == TextAssistantPlan(outside).actions[..|r.actions|]
  {
    Interrupt(TextAssistantPlan(outside), outside.deviceFailsAt)
  }

  /** The dots typed before the reply. */
  function MarksTyped(outside: Outside): nat
  {
    match outside.capture
    case NoScreenshot => 1
    case SaveFailed => 2
    case EncodeFailed => 3
    case Captured =>
      if outside.noSubmit || !outside.apiKeySet then 4
      else match outside.response
        case RequestFailed => 5
        case UnreadableBody => 6
        case UnusableReply => 7
        case Reply(_) => 7
  }

  /** The shape of every planned round: the body style, the dots, and only in a
      full round the body style again, the erasure, the reply and a blank
      line. */
  lemma TextAssistantShape(outside: Outside)
    ensures var r := TextAssistantPlan(outside);
            var head := [BodyStyle] + Dots(MarksTyped(outside));
            (r.end == Continue ==>
               r.actions == head + [BodyStyle, TypeString(EraseDots), TypeString(outside.response.payload), TypeString("\n\n")]) &&
            (r.end != Continue ==> r.actions == head)
  {
  }

  /** The body style is the 3 key's keystroke inside Ctrl. */
  lemma BodyStyleSplit()
    ensures Keyboard.StylePlan(Keyboard.Body) ==
            [Keyboard.Press(Keyboard.KeyLeftCtrl)] + Keyboard.Stroke(Keyboard.Key3, false) + [Keyboard.Release(Keyboard.KeyLeftCtrl)]
  {
    Keyboard.StrokeSteps(Keyboard.Key3, false);
  }

  /** The body style presses Ctrl and the 3 key only. */
  lemma StyleCounts(k: Keyboard.Key)
    requires k !in {Keyboard.KeyLeftCtrl, Keyboard.KeyLeftShift, Keyboard.Key3}
    ensures Keyboard.Presses(Keyboard.StylePlan(Keyboard.Body), k) == 0
  {
    var stroke := Keyboard.Stroke(Keyboard.Key3, false);
    var ctrl := [Keyboard.Press(Keyboard.KeyLeftCtrl)];
    var release := [Keyboard.Release(Keyboard.KeyLeftCtrl)];
    BodyStyleSplit();
    Keyboard.StrokePresses(Keyboard.Key3, false, k);
    if Keyboard.Press(k) == ctrl[0] {
      Keyboard.KeyCodeInjective(k, Keyboard.KeyLeftCtrl);
    }
    Keyboard.PressesAppend(ctrl + stroke, release, k);
    Keyboard.PressesAppend(ctrl, stroke, k);
    Keyboard.PressesOne(ctrl[0], k);
    Keyboard.PressesOne(release[0], k);
  }

  /** One more dot is one more unshifted dot keystroke. */
  lemma DotsSnoc(n: nat)
    ensures KeyPlanOf(Dots(n + 1)) == KeyPlanOf(Dots(n)) + Keyboard.Stroke(Keyboard.KeyDot, false)
  {
    assert Dots(n + 1) == Dots(n) + [Dot];
    FlatMapAppend(CallPlan, Dots(n), [Dot]);
    assert KeyPlanOf([Dot]) == CallPlan(Dot) + KeyPlanOf([]);
    Keyboard.MarkCharacters();
  }

  /** The dots are the keystrokes `progress` sends, one per mark. */
  lemma {:induction false} DotsPlan(n: nat)
    ensures KeyPlanOf(Dots(n)) == Keyboard.Repeat(Keyboard.Stroke(Keyboard.KeyDot, false), n)
  {
    if n > 0 {
      DotsPlan(n - 1);
      DotsSnoc(n - 1);
    } else {
      assert KeyPlanOf(Dots(0)) == [];
    }
  }

  /** `n` dots press the dot key `n` times and the backspace never. */
  lemma {:induction false} DotsCounts(n: nat)
    ensures Keyboard.Presses(KeyPlanOf(Dots(n)), Keyboard.KeyDot) == n
    ensures Keyboard.Presses(KeyPlanOf(Dots(n)), Keyboard.KeyBackspace) == 0
  {
    if n > 0 {
      DotsCounts(n - 1);
      DotsSnoc(n - 1);
      var stroke := Keyboard.Stroke(Keyboard.KeyDot, false);
      Keyboard.StrokePresses(Keyboard.KeyDot, false, Keyboard.KeyDot);
      Keyboard.StrokePresses(Keyboard.KeyDot, false, Keyboard.KeyBackspace);
      Keyboard.PressesAppend(KeyPlanOf(Dots(n - 1)), stroke, Keyboard.KeyDot);
      Keyboard.PressesAppend(KeyPlanOf(Dots(n - 1)), stroke, Keyboard.KeyBackspace);
    } else {
      assert KeyPlanOf(Dots(0)) == [];
    }
  }

  /** The keys pressed before the reply: the dot key once per mark, and
      the backspace never. */
  lemma HeadCounts(n: nat)
    ensures Keyboard.Presses(KeyPlanOf([BodyStyle] + Dots(n)), Keyboard.KeyDot) == n
    ensures Keyboard.Presses(KeyPlanOf([BodyStyle] + Dots(n)), Keyboard.KeyBackspace) == 0
  {
    FlatMapAppend(CallPlan, [BodyStyle], Dots(n));
    assert KeyPlanOf([BodyStyle]) == CallPlan(BodyStyle) + KeyPlanOf([]);
    assert KeyPlanOf([BodyStyle] + Dots(n)) == Keyboard.StylePlan(Keyboard.Body) + KeyPlanOf(Dots(n));
    StyleCounts(Keyboard.KeyDot);
    StyleCounts(Keyboard.KeyBackspace);
    DotsCounts(n);
    Keyboard.PressesAppend(Keyboard.StylePlan(Keyboard.Body), KeyPlanOf(Dots(n)), Keyboard.KeyDot);
    Keyboard.PressesAppend(Keyboard.StylePlan(Keyboard.Body), KeyPlanOf(Dots(n)), Keyboard.KeyBackspace);
  }

  /** The erasure is seven backspace keystrokes and nothing else. */
  lemma EraseCounts()
    ensures Keyboard.Presses(Keyboard.TypePlan(EraseDots), Keyboard.KeyBackspace) == 7
    ensures Keyboard.Presses(Keyboard.TypePlan(EraseDots), Keyboard.KeyDot) == 0
  {
    var b := Keyboard.Stroke(Keyboard.KeyBackspace, false);
    ErasePlan();
    Keyboard.StrokePresses(Keyboard.KeyBackspace, false, Keyboard.KeyBackspace);
    Keyboard.StrokePresses(Keyboard.KeyBackspace, false, Keyboard.KeyDot);
    Keyboard.RepeatCount(b, 7, (st: Step<InputEvent>) => st == Keyboard.Press(Keyboard.KeyBackspace));
    Keyboard.RepeatCount(b, 7, (st: Step<InputEvent>) => st == Keyboard.Press(Keyboard.KeyDot));
  }

  /** The balance of `text_assistant` on a working keyboard: a full round
      presses the dot key seven times before the reply and then exactly
      seven backspaces, which are the same keystrokes `progress` and
      `progress_end` send. A round that stops or fails leaves its dots on
      screen and types no backspace; with `--no-submit` there are four. */
  lemma TextAssistantBalance(outside: Outside)
    ensures var r := TextAssistantPlan(outside);
            var head := [BodyStyle] + Dots(MarksTyped(outside));
            Keyboard.Presses(KeyPlanOf(head), Keyboard.KeyDot) == MarksTyped(outside) &&
            Keyboard.Presses(KeyPlanOf(head), Keyboard.KeyBackspace) == 0 &&
            r.actions[..|head|] == head &&
            (r.end == Continue ==> MarksTyped(outside) == 7 &&
                                   r.actions[|head| + 1] == TypeString(EraseDots) &&
                                   Keyboard.Presses(CallPlan(r.actions[|head| + 1]), Keyboard.KeyBackspace) == 7 &&
                                   Keyboard.Presses(CallPlan(r.actions[|head| + 1]), Keyboard.KeyDot) == 0 &&
                                   Keyboard.TypePlan(EraseDots) == Keyboard.Repeat(Keyboard.Stroke(Keyboard.KeyBackspace, false), 7)) &&
            (r.end != Continue ==> r.actions == head) &&
            (outside.capture == Captured && outside.noSubmit ==> MarksTyped(outside) == 4)
  {
    TextAssistantShape(outside);
    HeadCounts(MarksTyped(outside));
    EraseCounts();
    ErasePlan();
  }

  /** Typing the erasure sends seven backspace keystrokes, one after
      another. */
  lemma ErasePlan()
    ensures Keyboard.TypePlan(EraseDots) == Keyboard.Repeat(Keyboard.Stroke(Keyboard.KeyBackspace, false), 7)
  {
    var b := Keyboard.Stroke(Keyboard.KeyBackspace, false);
    Keyboard.MarkCharacters();
    var e := EraseDots;
    forall k: nat | k <= 7
      ensures Keyboard.TypePlan(e[..k]) == Keyboard.Repeat(b, k)
    {
      RepeatPrefix(k);
    }
    assert e[..7] == e;
  }

  lemma {:induction false} RepeatPrefix(k: nat)
    requires k <= 7
    ensures Keyboard.TypePlan(EraseDots[..k]) == Keyboard.Repeat(Keyboard.Stroke(Keyboard.KeyBackspace, false), k)
  {
    if k > 0 {
      RepeatPrefix(k - 1);
      var e := EraseDots;
      assert e[..k] == e[..k - 1] + ["\U{8}"[0]];
      assert ["\U{8}"[0]] == "\U{8}";
      Keyboard.TypePlanAppend(e[..k - 1], "\U{8}");
      Keyboard.MarkCharacters();
    } else {
      assert EraseDots[..0] == [];
    }
  }
}
