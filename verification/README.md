# ghostwriter in Dafny

A model of the core of ghostwriter, the reMarkable tablet assistant. A tap
in the top-right corner of the screen starts a round: the assistant
captures the screen and sends it to a language model. It then draws the
model's SVG reply with an emulated pen (`ghostwriter`) or types the reply
with an emulated keyboard (`text_assistant`). The model covers these parts:

- **Device calls and failure** (`emission.dfy`). Every routine that drives
  a device is written as a *plan*: the device calls it would make, plus
  its sleeps. `Emission.Run` replays a plan on a device that accepts a
  given number of calls and fails on the next. This is exactly the
  early return of Rust's `?`, because no routine looks at what a call
  returned.
- **Pen** (`pen.dfy`, `src/pen.rs`):
  - the packet each pen call sends;
  - `draw_bitmap` as nested loops, with the pen-state invariant and
    run counting;
  - `draw_line` with Rust's truncating division.
- **Keyboard** (`keyboard.dfy`, `src/keyboard.rs`):
  - the character table and its inverse;
  - the declared key set;
  - `string_to_keypresses` and a reader that recovers the typed text;
  - `key_cmd` and the four text-style shortcuts;
  - the progress counter (`progress`, `progress_end`) and its balance of
    dots against backspaces.
- **Touch trigger** (`touch.dfy`, `src/touch.rs`). `wait_for_trigger`
  becomes a search over a finite sequence of multi-touch events.
- **Screenshot** (`screenshot.dfy`, `src/screenshot.rs`):
  - the hex parse of the framebuffer address and the `+7` offset;
  - the read window;
  - high-byte extraction;
  - the rotate and mirror index maps, proved to be bijections;
  - the contrast curve.
- **Utilities** (`util.dfy`, `src/util.rs`):
  - alpha thresholding and row chunking in `svg_to_bitmap`, with its
    fallback SVG;
  - the grey mapping of `write_bitmap_to_file`;
  - the precedence of options, environment and fallback.
- **The two assistant loops** (`ghostwriter.dfy`, `src/main.rs`):
  - one round of each loop;
  - the status lines drawn in `ghostwriter`;
  - proof that the inline drawing loop produces the same calls as
    `Pen::draw_bitmap`;
  - the seven progress dots of `text_assistant` and the seven backspaces
    that erase them.
- **LLM engines** (`json.dfy`, `http.dfy`, `openai.dfy`, `google.dfy`,
  `anthropic.dfy`, `llm_engine.dfy`):
  - JSON as a datatype;
  - each vendor's content entries, tool declarations, request body,
    endpoint and reply shape;
  - the engine shared by all vendors: a closed `Vendor` datatype stands
    for the `LLMEngine` interface;
  - tool registration and the content buffer;
  - `execute`, which dispatches the first tool call of the reply to the
    first tool of that name.

The rest of the world becomes parameters, as listed under "Left out":
the network, the JSON parser, the SVG library, process memory, and the
conversion from screen to digitizer coordinates.

The source and its description disagree in a few places. The model
follows the source:
- `src/llm_engine/mod.rs` declares only `anthropic` and `openai` as
  submodules (lines 1-2). The Google engine in `src/llm_engine/google.rs`
  is therefore not compiled, but it is modelled as written.
- The Anthropic engine modelled is `src/engine/anthropic.rs`. It does not
  implement the `LLMEngine` interface: its `new` takes a model name
  instead of an option map, and `LlmEngine.NewAnthropic` has that
  signature. The `anthropic` submodule declared at `src/llm_engine/mod.rs`
  line 1 is not part of this model.
- The Anthropic request always names the model `claude-3-5-sonnet-latest`,
  whatever model the engine holds. It also `unwrap`s the HTTP result, so a
  status error or transport failure panics rather than returning `Err`.
- `src/main.rs` does not declare the `util` or `llm_engine` modules. It
  has its own copies of `svg_to_bitmap` and `write_bitmap_to_file`, and the
  copy's fallback SVG differs from the one in `src/util.rs`. Both fallbacks
  are modelled, as `Util.FallbackSvg` and `Ghostwriter.FallbackSvg`.

## Model

| member | source | states |
|---|---|---|
| Emission.Run | src/pen.rs:47-58 | a routine replayed on a device that accepts `budget` calls succeeds exactly when the plan needs no more calls than that, and then sends the whole plan |
| Emission.RunFailure | src/pen.rs:47-58 | a failing routine sends a proper prefix of its plan, stops right before a device call, and has used the device's whole budget |
| Emission.RunAppend | src/keyboard.rs:268-279 | running two routines one after the other is running their concatenation: the second starts with the budget the first left |
| Emission.RunAppendFails | src/keyboard.rs:268-279 | once a routine has failed, nothing after it is sent |
| Pen.Packet | src/pen.rs:108-142 | `pen_down` sends tool pen 1, touch 1, pressure 2630, distance 0; `pen_up` sends pressure 0, distance 100, touch 0, tool pen 0; `goto_xy` sends `ABS_X`, `ABS_Y`; every packet ends in its only `SYN_REPORT`, and `BTN_TOUCH` is set to 1 by `pen_down`, to 0 by `pen_up`, and left untouched by a move |
| Pen.GotoPacketHasNoTouch | src/pen.rs:134-142 | a move never presses or releases the pen |
| Pen.DrawBitmap | src/pen.rs:63-87 | the nested loops of `draw_bitmap` make exactly the row-by-row reference calls |
| Pen.DrawRow | src/pen.rs:65-85 | one row: its pixels' calls followed by the unconditional lift and a 5 ms pause |
| Pen.DrawPixel | src/pen.rs:67-80 | one pixel: lower the pen (approach, down, 1 ms) on entering ink, stroke (x, y) to (x+1, y) on ink, lift (up, 1 ms) on leaving ink; the pen is down afterwards exactly on ink |
| Pen.PixelPenState | src/pen.rs:67-80 | after a pixel the pen is down exactly when the pixel is ink, and the pen is never lowered while it is down |
| Pen.ScanPenState | src/pen.rs:66-81 | after the first n pixels the pen is down exactly when pixel n-1 is ink |
| Pen.RowPenState | src/pen.rs:82-84 | every row, blank or empty included, ends with the pen up, whatever its state before |
| Pen.BitmapLeavesPenUp | src/pen.rs:63-87 | after any number of rows the pen is up, and it is never lowered while already down |
| Pen.PixelCounts | src/pen.rs:67-80 | a pixel lowers the pen once exactly when it starts a run, and makes 3 moves if it starts a run, 2 otherwise inside ink, none on background |
| Pen.ScanCounts | src/pen.rs:66-81 | the pen is lowered once per maximal run of ink, and the moves are twice the ink pixels plus the runs |
| Pen.RowCounts | src/pen.rs:65-85 | in a row, lowerings equal maximal runs of ink, moves are 2·ink + runs, and at least one lift is made |
| Pen.BlankRow | src/pen.rs:76-84 | a row's calls are just one lift and the 5 ms pause exactly when it holds no ink |
| Pen.SingleRunRow | src/pen.rs:67-84 | a row whose ink is the run [a, b) is drawn as approach, down, the run's strokes, a lift if the run ends inside the row, and the row's own lift |
| Pen.SingleRunRowDowns | src/pen.rs:68-73 | such a row lowers the pen exactly once |
| Pen.InkRunExample | src/pen.rs:63-87 | for ink in columns 20-29 of row 10 the calls are 27 long, start with approach (20,10), down, pause, (20,10), (21,10), end with two lifts, and lower the pen once |
| Pen.TruncDivSpec | src/pen.rs:40-41 | Rust's `/` on `i32`: the quotient is truncated toward zero, so `q·b` lies between 0 and `a` and the remainder is below `b` in size |
| Pen.DrawLinePlan | src/pen.rs:27-61 | `draw_line` fails (division by zero) exactly for equal endpoints; otherwise it makes up, goto start, down, then `steps` moves, move i going to start + (end - start)/steps·i with Rust's truncating division, then up; every move stays in the endpoints' rectangle |
| Pen.LineMovesAt | src/pen.rs:51-54 | move i of a line is the start plus i times the per-step delta |
| Pen.LineStopsShort | src/pen.rs:40-56 | no move of a line reaches the far endpoint: the truncated step times at most steps-1 falls short of it |
| Pen.StepBetween | src/pen.rs:51-54 | each intermediate coordinate lies between the two endpoints |
| Pen.LineMovesBetween | src/pen.rs:51-56 | every move of a line stays inside the rectangle spanned by its endpoints |
| Pen.DrawLinePenState | src/pen.rs:47-58 | a line lowers the pen exactly once and leaves it up |
| Pen.DrawLineScreenPlan | src/pen.rs:23-25 | `draw_line_screen` fails exactly when the converted endpoints coincide; otherwise it makes up, goto the converted start, down, the same truncated steps from the converted start towards the converted end, then up |
| Pen.DrawLineScreenPenState | src/pen.rs:23-58 | a screen line lowers the pen once, leaves it up, and keeps every move inside the converted endpoints' rectangle without reaching the converted end |
| Keyboard.KeyForRoundTrip | src/keyboard.rs:98-215 | reading the table from the key side gives back every mapped character |
| Keyboard.LowerRoundTripAM | src/keyboard.rs:101-114 | the lower-case letters a to m are mapped, unshifted, and read back |
| Keyboard.LowerRoundTripNZ | src/keyboard.rs:115-127 | the lower-case letters n to z are mapped, unshifted, and read back |
| Keyboard.UpperRoundTripAM | src/keyboard.rs:129-142 | the upper-case letters A to M are mapped and read back |
| Keyboard.UpperRoundTripNZ | src/keyboard.rs:143-155 | the upper-case letters N to Z are mapped and read back |
| Keyboard.DigitRoundTrip | src/keyboard.rs:157-167 | the digits are mapped and read back |
| Keyboard.ShiftedDigitRoundTrip | src/keyboard.rs:169-179 | the symbols on the digit keys read back |
| Keyboard.ShiftedPunctuationRoundTripLow | src/keyboard.rs:180-189 | the shifted punctuation below '@' reads back |
| Keyboard.ShiftedPunctuationRoundTripHigh | src/keyboard.rs:180-189 | the shifted punctuation from '@' up reads back |
| Keyboard.PunctuationRoundTripLow | src/keyboard.rs:192-202 | the unshifted punctuation below '=' reads back |
| Keyboard.PunctuationRoundTripHigh | src/keyboard.rs:192-202 | the unshifted punctuation from '=' up reads back |
| Keyboard.ControlRoundTrip | src/keyboard.rs:205-212 | whitespace, backspace and escape read back |
| Keyboard.CharForRoundTrip | src/keyboard.rs:98-215 | every (key, shift) pair the reverse table names is the table's entry for that character |
| Keyboard.ShiftedLetterRoundTrip | src/keyboard.rs:129-155 | every letter key with Shift is an entry of the table |
| Keyboard.PlainLetterRoundTrip | src/keyboard.rs:101-127 | every letter key without Shift is an entry of the table |
| Keyboard.ShiftedDigitKeyRoundTrip | src/keyboard.rs:169-179 | every digit key with Shift is an entry of the table |
| Keyboard.PlainDigitKeyRoundTrip | src/keyboard.rs:157-167 | every digit key without Shift is an entry of the table |
| Keyboard.ShiftedSymbolKeyRoundTrip | src/keyboard.rs:180-189 | every other key the reverse table types with Shift is an entry of the table |
| Keyboard.PlainSymbolKeyRoundTrip | src/keyboard.rs:192-212 | every other key the reverse table types without Shift is an entry of the table |
| Keyboard.KeyForInjective | src/keyboard.rs:98-215 | no two characters share a (key, shift) pair |
| Keyboard.KeyCodeRoundTrip | src/keyboard.rs:217-227 | the event code of a key identifies the key |
| Keyboard.LetterCodeRoundTrip | src/keyboard.rs:28-53 | the codes of the letter keys decode to their keys |
| Keyboard.DigitCodeRoundTrip | src/keyboard.rs:55-64 | the codes of the digit keys decode to their keys |
| Keyboard.OtherCodeRoundTrip | src/keyboard.rs:66-87 | the codes of the remaining keys decode to their keys |
| Keyboard.KeyCodeInjective | src/keyboard.rs:217-227 | distinct keys have distinct codes |
| Keyboard.UpperIsShiftedLower | src/keyboard.rs:101-155 | each upper-case letter is its lower-case letter's key with Shift, and the lower-case letter is unshifted |
| Keyboard.UnshiftedCharacters | src/keyboard.rs:101-212 | lower-case letters, digits, unshifted punctuation, whitespace, backspace and escape are typed without Shift |
| Keyboard.TableKeysDeclared | src/keyboard.rs:25-96 | every key of the table, and Shift and Ctrl, are declared on the virtual device; no character maps to a modifier |
| Keyboard.TypePlanAppend | src/keyboard.rs:229-266 | typing a concatenation is typing one string then the other |
| Keyboard.TypePlanSkipsUnmapped | src/keyboard.rs:230-231 | unmapped characters contribute nothing to what is typed |
| Keyboard.CharPlanRead | src/keyboard.rs:230-262 | reading back one character's keystroke gives the character when it is mapped and nothing otherwise |
| Keyboard.TypeRoundTrip | src/keyboard.rs:229-266 | reading back the events typed for a string gives exactly its mapped characters, in order |
| Keyboard.StrokeShiftCounts | src/keyboard.rs:232-256 | a keystroke presses and releases Shift once if shifted, never otherwise |
| Keyboard.StrokeSyncCount | src/keyboard.rs:258-260 | every keystroke ends with exactly one `SYN_REPORT` |
| Keyboard.StrokePresses | src/keyboard.rs:241-247 | a keystroke presses its own key once and no other key but Shift |
| Keyboard.StrokeEmissions | src/keyboard.rs:232-260 | a keystroke costs three device calls, five with Shift |
| Keyboard.CharPlanCounts | src/keyboard.rs:231-262 | one character's Shift presses, Shift releases, syncs and key presses |
| Keyboard.TypeCounts | src/keyboard.rs:229-266 | after typing a string, Shift presses equal Shift releases equal the shifted characters, syncs equal the mapped characters, and each key is pressed once per character typed with it |
| Keyboard.KeyCmdPlan | src/keyboard.rs:268-279 | `key_cmd` presses Ctrl first and releases it last, with Shift nested inside when asked, around typing the button |
| Keyboard.StylePlan | src/keyboard.rs:281-299 | the title, subheading, body and bullet shortcuts are Ctrl with 1, 2, 3, 4, unshifted |
| Keyboard.Progress | src/keyboard.rs:301-305 | `progress` types one dot (three calls) and counts it; if the device fails the count is unchanged |
| Keyboard.MarkCharacters | src/keyboard.rs:201-211 | '.' and the backspace character are single unshifted keystrokes |
| Keyboard.ProgressEnd | src/keyboard.rs:307-314 | `progress_end` types one backspace per counted mark and resets the count; if the device fails the count is unchanged |
| Keyboard.Backspaces | src/keyboard.rs:309-311 | n backspace keystrokes are 3n calls, n backspace presses and no dot |
| Keyboard.ProgressBalance | src/keyboard.rs:301-314 | for any sequence of `progress` and `progress_end` on a working device, dots typed equal backspaces typed plus the count |
| Keyboard.MarksState | src/keyboard.rs:301-305 | n `progress` calls type n dots and leave the count at n |
| Keyboard.MarksThenErase | src/keyboard.rs:301-314 | n `progress` calls then `progress_end` type n dots and n backspaces and leave the count at 0 |
| Touch.WaitForTrigger | src/touch.rs:15-37 | the result is the first event that reports a lifted finger (code 57, value -1) while the last reported x > 1360 and y > 1810; none when no event does |
| Touch.PositionIgnoresType | src/touch.rs:20-25 | the remembered position depends on event codes and values only |
| Touch.TriggerIgnoresType | src/touch.rs:20-32 | whether an event ends the wait does not depend on event types |
| Touch.PositionKeptByOtherCodes | src/touch.rs:20-25 | events with codes other than 53 and 54 leave the position unchanged, so a stale position survives a release |
| Touch.PositionIsLastReport | src/touch.rs:16-25 | the position is the last x and y reported, 0 where none was |
| Touch.LastReportSpec | src/touch.rs:20-25 | the last report of a code is none exactly when no event carries that code, and otherwise the value of an event with no later report of it |
| Touch.NoTriggerWithoutReports | src/touch.rs:16-29 | a lift before any x report never ends the wait |
| Touch.TriggerNeedsReports | src/touch.rs:26-31 | a lift that ends the wait follows an x report beyond 1360 and a y report beyond 1810 |
| Touch.CornerTapExample | src/touch.rs:15-33 | a finger put down at (1380, 1850) and lifted ends the wait on the lift; a lift alone does not |
| Screenshot.TrimStart | src/screenshot.rs:68 | leading whitespace removed: the result is a suffix, what was dropped is whitespace, and the result starts with non-whitespace |
| Screenshot.TrimEnd | src/screenshot.rs:68 | trailing whitespace removed, symmetrically |
| Screenshot.AccumulateValue | src/screenshot.rs:69 | the hex digit loop succeeds exactly on a string of hex digits worth less than 2^64, and yields their value |
| Screenshot.ParseHexRoundTrip | src/screenshot.rs:68-69 | an address printed in hex, with or without a leading '+', parses back to itself |
| Screenshot.ParseHexErrors | src/screenshot.rs:69 | only the empty string is `Empty`; a string parses exactly when it is a non-empty run of hex digits below 2^64 after an optional '+' |
| Screenshot.FramebufferOffsetExample | src/screenshot.rs:60-71 | the address line " 7f\n" gives the offset 0x86: trim, parse, add 7 |
| Screenshot.ReadFramebuffer | src/screenshot.rs:73-79 | the read succeeds exactly when the window of 1872·1404·2 bytes fits, and returns those bytes from the offset on |
| Screenshot.HighBytes | src/screenshot.rs:88-91 | sample i is byte 2i+1, the high byte of each little-endian pair, and there are half as many samples as bytes |
| Screenshot.HighBytesAppend | src/screenshot.rs:88-91 | samples of consecutive buffers join up when the first has an even length |
| Screenshot.LowBytesIgnored | src/screenshot.rs:88-91 | the low byte of each pair never matters |
| Screenshot.SrcIdx | src/screenshot.rs:97-98 | every read index is below 1404·1872 and is the framebuffer's column 1871-y of row 1403-x |
| Screenshot.DstIdx | src/screenshot.rs:99 | every write index is below 1404·1872 |
| Screenshot.SrcIdxBijective | src/screenshot.rs:95-101 | the read map is a bijection from the image onto the samples: every sample is used exactly once |
| Screenshot.DstIdxBijective | src/screenshot.rs:93-101 | the write map is a bijection onto the output: every output byte is written exactly once |
| Screenshot.RemapInjective | src/screenshot.rs:95-101 | distinct pixels read distinct samples and write distinct bytes |
| Screenshot.DstIdxOrder | src/screenshot.rs:95-99 | writes happen in row-major order |
| Screenshot.CurveBands | src/screenshot.rs:119-129 | bytes up to 11 go to 0, bytes from 16 go to 255, and 12 to 15 land strictly between |
| Screenshot.CurveMiddle | src/screenshot.rs:119-129 | in exact arithmetic, 12, 13, 14, 15 go to 35, 101, 168, 235 |
| Screenshot.CurveMonotone | src/screenshot.rs:119-129 | the curve never inverts contrast |
| Screenshot.Encode | src/screenshot.rs:87-102 | output pixel (x, y) is the curve applied to the high byte of the rotated and mirrored framebuffer pixel |
| Screenshot.TakeScreenshot | src/screenshot.rs:30-44 | a capture fails exactly when the address does not parse or the window does not fit, and otherwise yields the processed image |
| Util.Threshold | src/util.rs:34 | a pixel is ink exactly when its alpha exceeds 128 |
| Util.Chunks | src/util.rs:33 | `chunks(width)`: pieces of `width` elements, the last possibly shorter |
| Util.ChunksConcat | src/util.rs:31-35 | chunking loses and reorders nothing |
| Util.ChunksGrid | src/util.rs:28-35 | width·height pixels give height rows of exactly width entries |
| Util.ChosenTree | src/util.rs:19-26 | the reply's tree when it parses, else the fallback's, and nothing when both fail |
| Util.SvgToBitmap | src/util.rs:12-38 | an error exactly when neither the SVG nor the fallback parses; otherwise height rows of width entries that concatenate to the thresholded rendering |
| Util.ParsedReplyUsed | src/util.rs:19-26 | when the reply parses, the fallback does not matter |
| Util.BitmapToGrey | src/util.rs:40-58 | the grey image has the bitmap's rows at the first row's width, ink at 0 and background at 255 |
| Util.GreyRoundTrip | src/util.rs:45-53 | reading black as ink gives back every pixel, and every grey value is 0 or 255 |
| Util.OptionOrEnv | src/util.rs:60-67 | the option when present, else the environment variable |
| Util.OptionOrEnvFallback | src/util.rs:69-83 | the option, else the environment variable, else the fallback |
| Util.OptionWins | src/util.rs:60-83 | a present option wins whatever the environment holds |
| Util.FallbackAgrees | src/util.rs:60-83 | where `option_or_env` does not panic the fallback variant agrees with it; where it would panic the fallback is used |
| Ghostwriter.StatusMarksOnScreen | src/main.rs:190-278 | the four status lines have distinct endpoints on the 1404×1872 screen, in the top-right corner |
| Ghostwriter.Interrupt | src/main.rs:186-278 | a device failing at action k cuts the round to its first k+1 actions and ends it with an error; a device that fails only after the plan changes nothing; what is attempted is always a prefix of the plan |
| Ghostwriter.GhostwriterPlan | src/main.rs:179-293 | on a working pen a round goes round again exactly when the capture, key, reply, rendering and debug write all worked; it stops cleanly after one status line exactly on `--no-submit` after a full capture |
| Ghostwriter.GhostwriterRound | src/main.rs:179-293 | a round goes round again exactly when the screenshot was taken, saved and encoded, the request is submitted with a key, the reply is usable, some SVG renders, the debug file is written and none of the five pen actions fails; it stops cleanly exactly on `--no-submit` after a full capture whose status line was drawn; it draws at most five things and, when it continues, the bitmap fourth |
| Ghostwriter.GhostwriterShape | src/main.rs:184-279 | on a working pen every round draws a prefix of the three status lines; a full round then draws a full-screen bitmap and the closing line |
| Ghostwriter.GhostwriterProgress | src/main.rs:186-278 | on a working pen the number of status lines tells how far the round got: none without a screenshot, one once it is taken, two once the request is sent, three once a body is read |
| Ghostwriter.InlineDrawBitmap | src/main.rs:251-276 | the inline drawing loop makes exactly the calls of `Pen::draw_bitmap` for every bitmap |
| Ghostwriter.InlineDrawRow | src/main.rs:252-276 | each inline row makes the calls of `draw_bitmap`'s row and leaves the pen up |
| Ghostwriter.DrawnBitmapWritable | src/main.rs:246-248 | the bitmap of a full round is non-empty with no row wider than the first, so the debug file write does not panic |
| Ghostwriter.TextAssistantPlan | src/main.rs:85-177 | on a working keyboard a round continues exactly when the capture, key and reply all worked and stops cleanly, after five calls, exactly on `--no-submit` after a full capture; a continuing round makes twelve calls |
| Ghostwriter.TextAssistantRound | src/main.rs:85-177 | a round continues exactly when the screenshot was taken, saved and encoded, the request is submitted with a key, the reply is usable and none of the twelve keyboard calls fails; it stops cleanly exactly on `--no-submit` after a full capture whose five calls went through; its calls are a prefix of the plan |
| Ghostwriter.TextAssistantShape | src/main.rs:89-162 | on a working keyboard every round types the body style and its dots (one, two, three or four up to the capture's end); only a full round then types the body style, the erasure, the reply and a blank line |
| Ghostwriter.DotsPlan | src/main.rs:94-142 | the dots are the keystrokes `progress` sends, one per mark |
| Ghostwriter.EraseCounts | src/main.rs:158 | the erasure presses backspace seven times and the dot key never |
| Ghostwriter.ErasePlan | src/main.rs:158 | the erasure is seven backspace keystrokes, as `progress_end` would send for seven marks |
| Ghostwriter.TextAssistantBalance | src/main.rs:93-160 | on a working keyboard a full round types seven dots and then exactly seven backspaces; a round that stops or fails erases nothing, with four dots on `--no-submit` |
| Http.ReceiveChecked | src/llm_engine/openai.rs:106-117 | a readable 2xx body is received and an unreadable one panics; a status error is `API ERROR` when its body reads as JSON and the body's read error otherwise; a transport failure is `OTHER API ERROR` |
| Http.ReceiveUnwrapped | src/engine/anthropic.rs:94-112 | the Anthropic engine never returns an HTTP error: everything but a readable 2xx body panics |
| OpenAI.TextContent | src/llm_engine/openai.rs:67-72 | the text entry reads back as that text and as no image |
| OpenAI.ImageContent | src/llm_engine/openai.rs:74-81 | the image entry is a `data:image/png;base64,` URL whose payload reads back, and reads as no text |
| OpenAI.ToolDefinition | src/llm_engine/openai.rs:28-37 | a `function` declaration carrying the definition's name, description and parameters |
| OpenAI.Body | src/llm_engine/openai.rs:88-97 | the model, one user message with the content in order, the declarations in order, tool choice `required`, no parallel calls |
| OpenAI.Request | src/llm_engine/openai.rs:101-104 | posted to the base URL's `/v1/chat/completions` with the key as a bearer token |
| OpenAI.SelectCallReply | src/llm_engine/openai.rs:120-125 | the first tool call of a completion reads back with its arguments parsed; a message without tool calls reads as none |
| Google.TextContent | src/llm_engine/google.rs:65-69 | the untagged text part reads back as that text and as no image |
| Google.ImageContent | src/llm_engine/google.rs:71-78 | the `inline_data` PNG part carries the raw payload, reads back, and reads as no text |
| Google.ToolDefinition | src/llm_engine/google.rs:24-30 | the declaration carries the definition's name, description and parameters |
| Google.Body | src/llm_engine/google.rs:85-96 | one user turn with the parts in order, one tools entry with every declaration in order, mode `ANY` |
| Google.Request | src/llm_engine/google.rs:100-102 | posted to the model's `generateContent` under the base URL, with the key in the query and in no header |
| Google.SelectCallReply | src/llm_engine/google.rs:118-122 | the first part's function call reads back with its args unparsed; a candidate without parts reads as none |
| Anthropic.TextContent | src/engine/anthropic.rs:42-47 | the text block reads back as that text and as no image |
| Anthropic.ImageContent | src/engine/anthropic.rs:49-58 | the base64 PNG image block reads back, and reads as no text |
| Anthropic.ToolDefinition | src/engine/anthropic.rs:66-72 | name and description copied, parameters carried as `input_schema` and not as `parameters` |
| Anthropic.Body | src/engine/anthropic.rs:76-88 | the fixed model and 5000 tokens, one user message with the content in order, the declarations in order, tool choice `any` with parallel use disabled |
| Anthropic.Request | src/engine/anthropic.rs:94-98 | posted to the fixed messages endpoint with the key and API version 2023-06-01 in headers |
| Anthropic.SelectCallReply | src/engine/anthropic.rs:114-118 | the first content block's name and input read back; an empty content array reads as none |
| LlmEngine.NewOpenAI | src/llm_engine/openai.rs:45-57 | the model option, the key from the options before `OPENAI_API_KEY`, the public endpoint when no base URL is set, no tools, no content |
| LlmEngine.NewGoogle | src/llm_engine/google.rs:38-55 | the same with the Google variables and endpoint |
| LlmEngine.NewAnthropic | src/engine/anthropic.rs:20-28 | the given model and the `ANTHROPIC_API_KEY` key, no tools, no content |
| LlmEngine.RegisterTool | src/llm_engine/openai.rs:59-65 | the tool goes at the end with its callback; earlier tools and the content are unchanged |
| LlmEngine.AddContent | src/llm_engine/openai.rs:39-41 | the entry goes at the end of the content; tools unchanged |
| LlmEngine.TextContent | src/llm_engine/mod.rs:13 | in every vendor's shape the text entry reads back as the text and as no image |
| LlmEngine.ImageContent | src/llm_engine/mod.rs:14 | in every vendor's shape the image entry reads back as the payload and as no text |
| LlmEngine.AddTextContent | src/llm_engine/mod.rs:13 | the vendor's text entry goes at the end; tools unchanged |
| LlmEngine.AddImageContent | src/llm_engine/mod.rs:14 | the vendor's image entry goes at the end; tools unchanged |
| LlmEngine.ClearContent | src/llm_engine/mod.rs:15 | the content is emptied and the tools are kept |
| LlmEngine.Declaration | src/llm_engine/openai.rs:94 | every vendor's declaration carries the definition's name, description and parameters |
| LlmEngine.Declarations | src/llm_engine/openai.rs:94 | one declaration per tool, in registration order |
| LlmEngine.RequestOf | src/llm_engine/openai.rs:88-104 | the request carries the content in insertion order and the declarations in registration order; Anthropic's names its fixed model |
| LlmEngine.FindTool | src/llm_engine/openai.rs:126-129 | the first tool with the name, and none exactly when no tool has it |
| LlmEngine.Dispatch | src/llm_engine/openai.rs:120-149 | no call is "No tool calls found", an unknown name is "No tool registered", an unreadable call panics; success invokes the first tool of that name once with the call's arguments; a failure invokes nothing |
| LlmEngine.Respond | src/llm_engine/openai.rs:106-149 | at most one callback runs, and one does exactly on success; an HTTP error invokes nothing |
| LlmEngine.Execute | src/llm_engine/mod.rs:16 | `execute` invokes at most one callback, exactly on success, and the tool invoked exists and has a callback |
| LlmEngine.RegisteredKept | src/llm_engine/openai.rs:59-65 | every registered tool has a callback, whatever the engine does next |
| LlmEngine.NoCallbackUnreachable | src/llm_engine/openai.rs:131-140 | the "No callback registered" error never happens |
| LlmEngine.RegisterShadowed | src/llm_engine/openai.rs:126-129 | a tool registered under a name already taken is never found |
| LlmEngine.HttpFailures | src/llm_engine/openai.rs:106-115 | for OpenAI and Google a transport failure is `OTHER API ERROR`, a status error with a JSON body `API ERROR` and one with an unreadable body the read error; for Anthropic each of them panics; no callback runs |
| LlmEngine.CallReplySelected | src/llm_engine/openai.rs:120-125 | every vendor reads its own tool-call reply back as the call |
| LlmEngine.ReplyInvokesFirstNamed | src/llm_engine/openai.rs:120-134 | a reply naming a registered tool invokes the first tool of that name once, with the reply's arguments |
| LlmEngine.ApplyOne | src/llm_engine/openai.rs:67-85 | a clear empties the buffer and an addition appends the vendor's entry; nothing else changes |
| LlmEngine.ApplyAllContent | src/llm_engine/openai.rs:67-85 | any sequence of content operations changes the content buffer only |
| LlmEngine.BufferHistory | src/llm_engine/openai.rs:83-85 | after any content operations the buffer is the additions since the last clear, appended to the old buffer when there was no clear |
| LlmEngine.HistoryRead | src/llm_engine/openai.rs:67-85 | for any entry shape a reader can undo, the buffer keeps the old content only if nothing cleared it, and then holds one entry per addition since the last clear, reading back as that addition |
| LlmEngine.EntryDecodes | src/llm_engine/mod.rs:13-14 | in every vendor's shape each addition's entry reads back as that addition |
| LlmEngine.ContentHistory | src/llm_engine/openai.rs:88-93 | the content a request carries is the old buffer (if never cleared) followed by entries that read back as the additions since the last clear, in order |

## Left out

- Device and file I/O are not modelled: opening devices, process discovery with `pidof` and `grep`, reading `/proc/<pid>/mem`, writing PNG files and `println!`. A capture takes the address line and the process memory as inputs; in a round only how far the capture got (taken, saved, encoded) is an input.
- A round starts after the corner tap. A failing read of the touch device, which ends the loop before any action, is not modelled.
- A device failure inside a round is located by the action it interrupts (`Ghostwriter.Interrupt`), not by the individual write; the interrupted action is recorded as attempted.
- Ghostwriter.RoundEnd does not tell a panic (an `unwrap` on the reply's fields) from an error returned with `?`: both end the loop and are `Fail`.
- Sleeps are plan steps with their duration and no timing meaning.
- The infinite loops of `ghostwriter`, `text_assistant` and `wait_for_trigger` are modelled as one round, or one finite event sequence.
- The network is left out: `execute` gets the HTTP result of its request from a `send` parameter, and the rounds of `src/main.rs` get the response as an input.
- JSON text parsing and printing (`serde_json`) is left out: the engines take a `parse` parameter, and JSON values are a datatype.
- The prompt files `prompts/base.json` and `prompts/text.json` are not modelled. A round takes the reply's payload as an input.
- SVG parsing and rendering (`resvg`, fonts) are `parse` and `render` parameters. PNG encoding and base64 are not modelled.
- The f32 conversion `screen_to_input` is a parameter, or the moves are kept in screen coordinates (`GotoScreen`).
- Pen.DrawLinePlan: the `i32` arithmetic `x1 + dx * i` is computed on unbounded integers, so its overflow is not modelled; for points on the tablet the values stay far inside `i32`.
- Pen.DrawLinePlan: the f32 length and `ceil` that give `steps` are not computed. `steps` is an input that is 0 exactly for equal endpoints.
- Screenshot.ApplyCurves is computed with exact reals instead of f32. Only the 12 to 15 band could round differently, and `CurveMiddle` is stated in exact arithmetic.
- Screenshot.FramebufferOffset does not model the `u64` overflow of `address + 7` for addresses within 7 of 2^64.
- Keyboard.Progress does not model the `u32` overflow of `progress_count`.
- What a tool callback does is not modelled. A callback is a handle, and an execution records which tool was invoked with which arguments.
- UTF-8 decoding of process output is not modelled. Strings are sequences of characters.
- `src/segmenter.rs` and the command-line parsing in `src/main.rs` are not part of this model.
- Util.OptionOrEnv: the panic of the `unwrap` when neither the option nor the variable is set is excluded by its precondition. `Util.OptionOrEnvFallback` and `Util.FallbackAgrees` cover that input, and the callers' `Configurable` predicates discharge the precondition.
- LlmEngine.NewOpenAI: the panic when no API key is given by option or `OPENAI_API_KEY`, or when the `model` option is missing, is excluded by the precondition `OpenAI.Configurable`.
- LlmEngine.NewGoogle: the panic when no API key is given by option or `GOOGLE_API_KEY`, or when the `model` option is missing, is excluded by the precondition `Google.Configurable`.
- LlmEngine.NewAnthropic: the panic of the `unwrap` on a missing `ANTHROPIC_API_KEY` is excluded by the precondition `Anthropic.Configurable`.
- Util.BitmapToGrey: the panic of indexing the first row of an empty bitmap, and the out-of-bounds write for a row wider than the first, are excluded by its precondition. `Ghostwriter.DrawnBitmapWritable` shows the bitmap a round draws meets it.
- Util.SvgToBitmap: the panic of `Pixmap::new(..).unwrap()` for a zero width or height is excluded by its precondition, and so is a pixmap too large to allocate, which is not modelled. Its callers pass the screen size 1404 by 1872.
- LlmEngine.Execute states only the invariants of any execution. The outcome for each kind of reply is stated in `LlmEngine.Respond`, `LlmEngine.Dispatch` and `LlmEngine.HttpFailures`.
