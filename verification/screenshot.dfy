/**
 * The screen capture of `src/screenshot.rs`: locating and reading the
 * framebuffer window of the display process, then turning its 16-bit
 * samples into an upright 8-bit grey image with a contrast curve.
 *
 * The framebuffer is stored rotated: it has 1872 columns and 1404 rows,
 * while the image handed on is 1404 wide and 1872 tall. Output pixel
 * (x, y) is taken from framebuffer column 1871 - y of row 1403 - x, a
 * reflection across the anti-diagonal. PNG compression is not modelled;
 * `Encode` yields the grey pixels the PNG is built from.
 */
module Screenshot {
  import opened Common

  /** Framebuffer geometry (`WIDTH`, `HEIGHT`, `BYTES_PER_PIXEL`). */
  const FbWidth: nat := 1872
  const FbHeight: nat := 1404
  const BytesPerPixel: nat := 2
  const WindowBytes: nat := FbWidth * FbHeight * BytesPerPixel

  /** Geometry of the image handed on (`REMARKABLE_WIDTH`, `REMARKABLE_HEIGHT`). */
  const Width: nat := 1404
  const Height: nat := 1872

  /** Number of pixels on either side of the remap. */
  const Pixels: nat := Width * Height

  /** One past the largest `u64`. */
  const U64Limit: nat := 0x1_0000_0000_0000_0000

  // ---------------------------------------------------------------------
  // Locating the framebuffer: trimming and parsing the address

  /** The characters `str::trim` removes (Unicode White_Space). */
  predicate IsWhitespace(c: char)
  {
    ('\t' <= c <= '\r') || c == ' ' || c == '\U{85}' || c == '\U{A0}' || c == '\U{1680}' ||
    ('\U{2000}' <= c <= '\U{200A}') || c == '\U{2028}' || c == '\U{2029}' || c == '\U{202F}' ||
    c == '\U{205F}' || c == '\U{3000}'
  }

  /** `s` without its leading whitespace. */
  function TrimStart(s: string): (r: string)
    ensures |r| <= |s| && r == s[|s| - |r|..]
    ensures forall i :: 0 <= i < |s| - |r| ==> IsWhitespace(s[i])
    ensures |r| > 0 ==> !IsWhitespace(r[0])
  {
    if |s| > 0 && IsWhitespace(s[0]) then TrimStart(s[1..]) else s
  }

  /** `s` without its trailing whitespace. */
  function TrimEnd(s: string): (r: string)
    ensures |r| <= |s| && r == s[..|r|]
    ensures forall i :: |r| <= i < |s| ==> IsWhitespace(s[i])
    ensures |r| > 0 ==> !IsWhitespace(r[|r| - 1])
  {
    if |s| > 0 && IsWhitespace(s[|s| - 1]) then TrimEnd(s[..|s| - 1]) else s
  }

  /** `str::trim`. */
  function Trim(s: string): string
  {
    TrimEnd(TrimStart(s))
  }

  /** Why a number could not be parsed (the kinds of Rust's `ParseIntError`). */
  datatype ParseError = Empty | InvalidDigit | PosOverflow

  /** `char::to_digit(16)`. */
  function HexDigit(c: char): Option<nat>
  {
    if '0' <= c <= '9' then Some(c as nat - '0' as nat)
    else if 'a' <= c <= 'f' then Some(c as nat - 'a' as nat + 10)
    else if 'A' <= c <= 'F' then Some(c as nat - 'A' as nat + 10)
    else None
  }

  predicate IsHex(s: string)
  {
    forall i :: 0 <= i < |s| ==> HexDigit(s[i]).Some?
  }

  /** The positional value of a string of hex digits, most significant
      first: the reference the parser is measured against. */
  function HexValue(s: string): nat
    requires IsHex(s)
  {
    if |s| == 0 then 0 else 16 * HexValue(s[..|s| - 1]) + HexDigit(s[|s| - 1]).value
  }

  /** The digit loop of `u64::from_str_radix(_, 16)`: left to right, each
      digit checked before the checked multiply-add, so the first problem
      met is the one reported. */
  function Accumulate(acc: nat, digits: string): Result<nat, ParseError>
    requires acc < U64Limit
    decreases |digits|
  {
    if |digits| == 0 then Ok(acc)
    else match HexDigit(digits[0])
      case None => Err(InvalidDigit)
      case Some(d) =>
        if acc * 16 + d >= U64Limit then Err(PosOverflow) else Accumulate(acc * 16 + d, digits[1..])
  }

  /** `u64::from_str_radix(s, 16)`: an optional `+`, then hex digits. */
  function ParseHex(s: string): Result<nat, ParseError>
  {
    if |s| == 0 then Err(Empty)
    else if s[0] == '+' && |s| == 1 then Err(InvalidDigit)
    else Accumulate(0, if s[0] == '+' then s[1..] else s)
  }

  /** `find_framebuffer_address` once the shell pipeline has printed the
      start address of the mapping: trim, parse as hex, add 7. */
  function FramebufferOffset(output: string): Result<nat, ParseError>
  {
    match ParseHex(Trim(output))
    case Ok(address) => Ok(address + 7)
    case Err(e) => Err(e)
  }

  /** The lower-case hex rendering without leading zeros. */
  function HexChar(d: nat): char
    requires d < 16
  {
    if d < 10 then ('0' as nat + d) as char else ('a' as nat + d - 10) as char
  }

  function ToHex(n: nat): (r: string)
    ensures |r| > 0 && IsHex(r)
  {
    if n < 16 then [HexChar(n)] else ToHex(n / 16) + [HexChar(n % 16)]
  }

  lemma IsHexPrefix(s: string, k: nat)
    requires IsHex(s) && k <= |s|
    ensures IsHex(s[..k])
  {
    assert forall i :: 0 <= i < k ==> s[..k][i] == s[i];
  }

  lemma IsHexSplit(a: string, b: string)
    ensures IsHex(a + b) <==> IsHex(a) && IsHex(b)
  {
    if IsHex(a + b) {
      assert forall i :: 0 <= i < |a| ==> a[i] == (a + b)[i];
      assert forall i :: 0 <= i < |b| ==> b[i] == (a + b)[|a| + i];
    }
  }

  /** A longer string of digits is worth at least as much as its prefix. */
  lemma {:induction false} HexValuePrefix(s: string, k: nat)
    requires IsHex(s) && k <= |s|
    ensures IsHex(s[..k]) && HexValue(s[..k]) <= HexValue(s)
    decreases |s| - k
  {
    IsHexPrefix(s, k);
    if k < |s| {
      var n := |s| - 1;
      IsHexPrefix(s, n);
      assert s[..n][..k] == s[..k];
      assert HexValue(s) == 16 * HexValue(s[..n]) + HexDigit(s[n]).value;
      if k < n {
        HexValuePrefix(s[..n], k);
      }
    } else {
      assert s[..k] == s;
    }
  }

  /** The digit loop, started on the value of the digits already read,
      succeeds exactly when the remaining ones are hex digits and the whole
      string's value fits in 64 bits, and then returns that value. */
  lemma {:induction false} AccumulateValue(read: string, rest: string)
    requires IsHex(read) && HexValue(read) < U64Limit
    ensures Accumulate(HexValue(read), rest).Ok? <==> IsHex(read + rest) && HexValue(read + rest) < U64Limit
    ensures Accumulate(HexValue(read), rest).Ok? ==> Accumulate(HexValue(read), rest).value == HexValue(read + rest)
    decreases |rest|
  {
    IsHexSplit(read, rest);
    if |rest| == 0 {
      assert read + rest == read;
    } else {
      var c := rest[0];
      var read' := read + [c];
      assert read' + rest[1..] == read + rest;
      assert read'[..|read'| - 1] == read;
      if HexDigit(c).Some? {
        IsHexSplit(read, [c]);
        assert HexValue(read') == 16 * HexValue(read) + HexDigit(c).value;
        if HexValue(read') < U64Limit {
          AccumulateValue(read', rest[1..]);
        } else if IsHex(read + rest) {
          HexValuePrefix(read + rest, |read'|);
          assert (read + rest)[..|read'|] == read';
        }
      } else {
        assert (read + rest)[|read|] == c;
      }
    }
  }

  lemma HexCharDigit(d: nat)
    requires d < 16
    ensures HexDigit(HexChar(d)) == Some(d)
  {
  }

  /** Rendering then reading the digits gives the number back. */
  lemma {:induction false} ToHexValue(n: nat)
    ensures HexValue(ToHex(n)) == n
  {
    HexCharDigit(n % 16);
    if n >= 16 {
      ToHexValue(n / 16);
      var h := ToHex(n);
      assert h[..|h| - 1] == ToHex(n / 16);
    }
  }

  /** The offset round trip: an address printed in hex, with or without a
      leading `+`, parses to itself. */
  lemma ParseHexRoundTrip(n: nat)
    requires n < U64Limit
    ensures ParseHex(ToHex(n)) == Ok(n)
    ensures ParseHex("+" + ToHex(n)) == Ok(n)
  {
    var h := ToHex(n);
    ToHexValue(n);
    ParsesDigits(h, n);
    assert ("+" + h)[0] == '+' && ("+" + h)[1..] == h;
  }

  /** A non-empty string of hex digits worth `n` accumulates to `n`. */
  lemma ParsesDigits(h: string, n: nat)
    requires |h| > 0 && IsHex(h) && HexValue(h) == n < U64Limit
    ensures Accumulate(0, h) == Ok(n) && h[0] != '+'
  {
    AccumulateValue([], h);
    assert [] + h == h;
    assert HexDigit(h[0]).Some?;
  }

  /** Which inputs fail: only the empty string is `Empty`, and the rest
      parse exactly when, after an optional `+`, they are a non-empty string
      of hex digits worth less than 2^64. */
  lemma ParseHexErrors(s: string)
    ensures ParseHex(s) == Err(Empty) <==> |s| == 0
    ensures ParseHex(s).Ok? <==> |s| > 0 && var digits := if s[0] == '+' then s[1..] else s;
                                            |digits| > 0 && IsHex(digits) && HexValue(digits) < U64Limit
  {
    if |s| > 0 {
      var digits := if s[0] == '+' then s[1..] else s;
      AccumulateValue([], digits);
      assert [] + digits == digits;
      AccumulateNeverEmpty(0, digits);
    }
  }

  lemma {:induction false} AccumulateNeverEmpty(acc: nat, digits: string)
    requires acc < U64Limit
    ensures Accumulate(acc, digits) != Err(Empty)
    decreases |digits|
  {
    if |digits| > 0 && HexDigit(digits[0]).Some? && acc * 16 + HexDigit(digits[0]).value < U64Limit {
      AccumulateNeverEmpty(acc * 16 + HexDigit(digits[0]).value, digits[1..]);
    }
  }

  /** The address line of the memory map, read with surrounding newlines,
      gives the address plus 7. */
  lemma FramebufferOffsetExample()
    ensures FramebufferOffset(" 7f\n") == Ok(0x86)
  {
    assert TrimStart(" 7f\n") == "7f\n";
    assert TrimEnd("7f\n") == "7f";
    assert Accumulate(0x7, "f") == Ok(0x7f);
  }

  /** Why the framebuffer could not be read. */
  datatype ReadError = UnexpectedEof

  /** `read_framebuffer`: `WindowBytes` bytes starting `skip` bytes into the
      process memory, or an error when the memory ends before that. */
  function ReadFramebuffer(memory: seq<byte>, skip: nat): (r: Result<seq<byte>, ReadError>)
    ensures r.Ok? <==> skip + WindowBytes <= |memory|
    ensures r.Ok? ==> |r.value| == WindowBytes && forall i :: 0 <= i < WindowBytes ==> r.value[i] == memory[skip + i]
  {
    if skip + WindowBytes <= |memory| then Ok(memory[skip..skip + WindowBytes]) else Err(UnexpectedEof)
  }

  // ---------------------------------------------------------------------
  // Samples

  /** The high byte of each little-endian 16-bit pair (`chunks_exact(2)`
      then `chunk[1]`; a trailing odd byte is dropped). */
  function HighBytes(raw: seq<byte>): (r: seq<byte>)
    ensures |r| == |raw| / 2
    ensures forall i :: 0 <= i < |r| ==> r[i] == raw[2 * i + 1]
  {
    if |raw| < 2 then [] else [raw[1]] + HighBytes(raw[2..])
  }

  /** Samples read from consecutive buffers join up when the first holds
      whole pairs. */
  lemma HighBytesAppend(a: seq<byte>, b: seq<byte>)
    requires |a| % 2 == 0
    ensures HighBytes(a + b) == HighBytes(a) + HighBytes(b)
  {
    var l, r := HighBytes(a + b), HighBytes(a) + HighBytes(b);
    assert |l| == |r|;
    forall i | 0 <= i < |l|
      ensures l[i] == r[i]
    {
      if i < |a| / 2 {
        assert (a + b)[2 * i + 1] == a[2 * i + 1];
      } else {
        assert (a + b)[2 * i + 1] == b[2 * (i - |a| / 2) + 1];
      }
    }
  }

  /** The low byte of each pair never matters. */
  lemma LowBytesIgnored(a: seq<byte>, b: seq<byte>)
    requires |a| == |b|
    requires forall i :: 0 <= i < |a| / 2 ==> a[2 * i + 1] == b[2 * i + 1]
    ensures HighBytes(a) == HighBytes(b)
  {
  }

  // ---------------------------------------------------------------------
  // The remap

  datatype Pixel = Pixel(x: nat, y: nat)

  predicate InImage(x: nat, y: nat)
  {
    x < Width && y < Height
  }

  lemma MulAtLeast(a: nat, b: nat)
    requires b >= 1
    ensures a * b >= a
  {
  }

  lemma {:induction false} DivModOf(q: nat, r: nat, d: nat)
    requires 0 <= r < d
    ensures (q * d + r) / d == q && (q * d + r) % d == r
  {
    var n := q * d + r;
    var q', r' := n / d, n % d;
    assert n == q' * d + r' && 0 <= r' < d;
    assert (q - q') * d == r' - r;
    if q > q' {
      MulAtLeast(d, q - q');
      assert false;
    } else if q < q' {
      MulAtLeast(d, q' - q);
      assert false;
    }
  }

  /** Index of framebuffer column `col` of row `row`. */
  function FbIndex(col: nat, row: nat): nat
  {
    row * FbWidth + col
  }

  /** `src_idx`: where output pixel (x, y) is read from; always within the
      samples. */
  function SrcIdx(x: nat, y: nat): (r: nat)
    requires InImage(x, y)
    ensures r < Pixels
    ensures r == FbIndex(FbWidth - 1 - y, FbHeight - 1 - x)
  {
    assert (Width - 1 - x) * Height <= (Width - 1) * Height;
    (Height - 1 - y) + (Width - 1 - x) * Height
  }

  /** `dst_idx`: where output pixel (x, y) is written, row-major. */
  function DstIdx(x: nat, y: nat): (r: nat)
    requires InImage(x, y)
    ensures r < Pixels
  {
    assert y * Width <= (Height - 1) * Width;
    y * Width + x
  }

  /** The output pixel read from sample `i`: the inverse of `SrcIdx`. */
  function SrcPixel(i: nat): Pixel
    requires i < Pixels
  {
    Pixel(Width - 1 - i / Height, Height - 1 - i % Height)
  }

  /** The output pixel written at index `i`: the inverse of `DstIdx`. */
  function DstPixel(i: nat): Pixel
    requires i < Pixels
  {
    Pixel(i % Width, i / Width)
  }

  /** `SrcIdx` is a bijection from the image onto the sample indices, so
      every sample is read exactly once. */
  lemma SrcIdxBijective(x: nat, y: nat, i: nat)
    requires InImage(x, y) && i < Pixels
    ensures SrcPixel(SrcIdx(x, y)) == Pixel(x, y)
    ensures InImage(SrcPixel(i).x, SrcPixel(i).y) && SrcIdx(SrcPixel(i).x, SrcPixel(i).y) == i
  {
    DivModOf(Width - 1 - x, Height - 1 - y, Height);
  }

  lemma MulMonotone(a: nat, b: nat, c: nat)
    requires a <= b
    ensures a * c <= b * c
  {
  }

  /** `DstIdx` is a bijection from the image onto the output indices, so
      every output byte is written exactly once. */
  lemma DstIdxBijective(x: nat, y: nat, i: nat)
    requires InImage(x, y) && i < Pixels
    ensures DstPixel(DstIdx(x, y)) == Pixel(x, y)
    ensures InImage(DstPixel(i).x, DstPixel(i).y) && DstIdx(DstPixel(i).x, DstPixel(i).y) == i
  {
    DivModOf(y, x, Width);
  }

  /** Distinct pixels read distinct samples and write distinct bytes. */
  lemma RemapInjective(x: nat, y: nat, x': nat, y': nat)
    requires InImage(x, y) && InImage(x', y') && Pixel(x, y) != Pixel(x', y')
    ensures SrcIdx(x, y) != SrcIdx(x', y')
    ensures DstIdx(x, y) != DstIdx(x', y')
  {
    SrcIdxBijective(x, y, 0);
    SrcIdxBijective(x', y', 0);
    DstIdxBijective(x, y, 0);
    DstIdxBijective(x', y', 0);
  }

  /** The loop writes in row-major order: index order is row, then column. */
  lemma DstIdxOrder(x: nat, y: nat, x': nat, y': nat)
    requires InImage(x, y) && InImage(x', y')
    ensures DstIdx(x, y) < DstIdx(x', y') <==> y < y' || (y == y' && x < x')
  {
    if y < y' {
      MulMonotone(y + 1, y', Width);
    } else if y' < y {
      MulMonotone(y' + 1, y, Width);
    }
  }

  // ---------------------------------------------------------------------
  // The contrast curve

  /** Rust's saturating `f32 as u8` for a non-negative value. */
  function SaturateByte(v: real): byte
  {
    if v <= 0.0 then 0 else if v >= 255.0 then 255 else v.Floor as byte
  }

  /** `apply_curves`: values below 4.5 % of full scale go black, values
      from 6 % up go white, and the band between is stretched linearly. */
  function ApplyCurves(value: byte): byte
  {
    var normalized := value as real / 255.0;
    var adjusted :=
      if normalized < 0.045 then 0.0
      else if normalized < 0.06 then (normalized - 0.045) / (0.06 - 0.045)
      else 1.0;
    SaturateByte(adjusted * 255.0)
  }

  /** The bands: 0.045 * 255 = 11.475 and 0.06 * 255 = 15.3, so 0..11 go
      to black and 16..255 to white. */
  lemma CurveBands(value: byte)
    ensures value <= 11 ==> ApplyCurves(value) == 0
    ensures value >= 16 ==> ApplyCurves(value) == 255
    ensures 12 <= value <= 15 ==> 0 < ApplyCurves(value) < 255
  {
    CurveMiddle();
  }

  /** The four values of the stretched band, in exact arithmetic. */
  lemma CurveMiddle()
    ensures ApplyCurves(12) == 35 && ApplyCurves(13) == 101
    ensures ApplyCurves(14) == 168 && ApplyCurves(15) == 235
  {
  }

  /** The curve never inverts contrast. */
  lemma CurveMonotone(a: byte, b: byte)
    requires a <= b
    ensures ApplyCurves(a) <= ApplyCurves(b)
  {
    CurveBands(a);
    CurveBands(b);
    CurveMiddle();
  }

  // ---------------------------------------------------------------------
  // Encoding

  /** What `encode_png` puts at output index `i`. */
  function Curved(samples: seq<byte>, i: nat): byte
    requires |samples| == Pixels && i < Pixels
  {
    var p := DstPixel(i);
    DstIdxBijective(0, 0, i);
    ApplyCurves(samples[SrcIdx(p.x, p.y)])
  }

  /** The pixel loop of `encode_png`: every output pixel (x, y) is the
      curved high byte of framebuffer column 1871 - y, row 1403 - x. */
  method Encode(raw: seq<byte>) returns (image: seq<byte>)
    requires |raw| == WindowBytes
    ensures |image| == Pixels
    ensures forall x: nat, y: nat :: InImage(x, y) ==>
              image[DstIdx(x, y)] == ApplyCurves(raw[2 * FbIndex(FbWidth - 1 - y, FbHeight - 1 - x) + 1])
  {
    var samples := HighBytes(raw);
    image := seq(Pixels, _ => 0);
    var y := 0;
    var k := 0;
    while y < Height
      invariant y <= Height && k == y * Width
      invariant |image| == Pixels
      invariant forall i :: 0 <= i < k ==> image[i] == Curved(samples, i)
    {
      var x := 0;
      while x < Width
        invariant x <= Width && k == y * Width + x
        invariant |image| == Pixels
        invariant forall i :: 0 <= i < k ==> image[i] == Curved(samples, i)
      {
        DstIdxBijective(x, y, 0);
        image := image[DstIdx(x, y) := ApplyCurves(samples[SrcIdx(x, y)])];
        x := x + 1;
        k := k + 1;
      }
      y := y + 1;
    }
    forall x: nat, y: nat | InImage(x, y)
      ensures image[DstIdx(x, y)] == ApplyCurves(raw[2 * FbIndex(FbWidth - 1 - y, FbHeight - 1 - x) + 1])
    {
      DstIdxBijective(x, y, 0);
    }
  }

  /** Why a capture failed. */
  datatype CaptureError = BadAddress(parse: ParseError) | ShortRead(read: ReadError)

  /** `take_screenshot` after the display process has been found: the
      address printed by the shell pipeline and the process memory are
      inputs. It fails exactly when the address does not parse or the
      memory ends inside the window, and otherwise yields the encoded image
      of the window at the address plus 7. */
  method TakeScreenshot(addressOutput: string, memory: seq<byte>) returns (r: Result<seq<byte>, CaptureError>)
    ensures r.Err? <==> FramebufferOffset(addressOutput).Err? ||
                        FramebufferOffset(addressOutput).value + WindowBytes > |memory|
    ensures r.Ok? ==> |r.value| == Pixels
    ensures r.Ok? ==> forall x: nat, y: nat :: InImage(x, y) ==>
              r.value[DstIdx(x, y)] ==
              ApplyCurves(memory[FramebufferOffset(addressOutput).value + 2 * FbIndex(FbWidth - 1 - y, FbHeight - 1 - x) + 1])
  {
    var offset := FramebufferOffset(addressOutput);
    if offset.Err? {
      return Err(BadAddress(offset.error));
    }
    var window := ReadFramebuffer(memory, offset.value);
    if window.Err? {
      return Err(ShortRead(window.error));
    }
    var image := Encode(window.value);
    return Ok(image);
  }
}
