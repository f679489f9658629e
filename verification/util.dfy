/**
 * The helpers of `src/util.rs`: rasterising an SVG reply into an ink
 * bitmap, mapping a bitmap to grey levels, and looking up settings in
 * the option map with the environment as a second source.
 *
 * SVG parsing and rendering belong to an external library; they are
 * parameters here. `parse` yields a tree or nothing, and `render` yields the
 * alpha channel of a `width` x `height` pixmap in row-major order. The
 * process environment is a map from variable names to values.
 */
module Util {
  import opened Common

  // ---------------------------------------------------------------------
  // svg_to_bitmap

  /** The fixed SVG rendered when the reply does not parse. */
  const FallbackSvg: string :=
    "<svg width='768' height='1024' xmlns='http://www.w3.org/2000/svg'>" +
    "<text x='100' y='900' font-family='Noto Sans' font-size='24'>ERROR!</text></svg>"

  /** A pixel counts as ink when its alpha exceeds 128. */
  predicate IsInk(alpha: byte)
  {
    alpha > 128
  }

  function Threshold(alphas: seq<byte>): (r: seq<bool>)
    ensures |r| == |alphas|
    ensures forall i :: 0 <= i < |r| ==> (r[i] <==> IsInk(alphas[i]))
  {
    seq(|alphas|, i requires 0 <= i < |alphas| => IsInk(alphas[i]))
  }

  /** `<[T]>::chunks(width)`: consecutive pieces of `width` elements, the
      last one possibly shorter. */
  function Chunks<T>(s: seq<T>, width: nat): (r: seq<seq<T>>)
    requires width > 0
    ensures forall i :: 0 <= i < |r| ==> 0 < |r[i]| <= width
    ensures forall i :: 0 <= i < |r| - 1 ==> |r[i]| == width
    decreases |s|
  {
    if |s| == 0 then []
    else if |s| <= width then [s]
    else [s[..width]] + Chunks(s[width..], width)
  }

  function Concat<T>(rows: seq<seq<T>>): seq<T>
  {
    if |rows| == 0 then [] else rows[0] + Concat(rows[1..])
  }

  /** Chunking loses and reorders nothing. */
  lemma {:induction false} ChunksConcat<T>(s: seq<T>, width: nat)
    requires width > 0
    ensures Concat(Chunks(s, width)) == s
    decreases |s|
  {
    if |s| > width {
      ChunksConcat(s[width..], width);
      assert s == s[..width] + s[width..];
    } else if |s| > 0 {
      assert [s][1..] == [];
    }
  }

  /** A buffer of `width * height` elements is cut into `height` rows of
      exactly `width`. */
  lemma {:induction false} ChunksGrid<T>(s: seq<T>, width: nat, height: nat)
    requires width > 0 && |s| == width * height
    ensures |Chunks(s, width)| == height
    ensures forall y :: 0 <= y < height ==> |Chunks(s, width)[y]| == width
  {
    if height > 1 {
      var rest := s[width..];
      assert width * height == width * (height - 1) + width;
      MulAtLeast(width, height - 1);
      ChunksGrid(rest, width, height - 1);
    } else if height == 1 {
      assert Chunks(s, width) == [s];
    }
  }

  lemma MulAtLeast(a: nat, b: nat)
    requires b >= 1
    ensures a * b >= a
  {
  }

  datatype SvgError = FallbackUnparsable

  /** The tree `svg_to_bitmap` renders: the reply's, or the fallback's when
      the reply does not parse; `None` when neither parses. */
  function ChosenTree<T>(svg: string, fallback: string, parse: string -> Option<T>): (r: Option<T>)
    ensures r.None? <==> parse(svg).None? && parse(fallback).None?
    ensures parse(svg).Some? ==> r == parse(svg)
    ensures parse(svg).None? ==> r == parse(fallback)
  {
    match parse(svg)
    case Some(tree) => Some(tree)
    case None => parse(fallback)
  }

  /** `svg_to_bitmap` with the fallback SVG as a parameter (the copy in
      `src/main.rs` differs only in it and in the fonts `render` sees).
      `Pixmap::new` panics on a zero dimension, so both are required
      positive. The result has `height` rows of `width` pixels which, read
      one after another, are the thresholded pixmap. */
  function SvgToBitmap<T(!new)>(svg: string, width: nat, height: nat, fallback: string,
                                parse: string -> Option<T>, render: (T, nat, nat) -> seq<byte>)
    : (r: Result<seq<seq<bool>>, SvgError>)
    requires width > 0 && height > 0
    requires forall t :: |render(t, width, height)| == width * height
    ensures r.Err? <==> parse(svg).None? && parse(fallback).None?
    ensures r.Ok? ==> |r.value| == height && forall y :: 0 <= y < height ==> |r.value[y]| == width
    ensures r.Ok? ==> Concat(r.value) == Threshold(render(ChosenTree(svg, fallback, parse).value, width, height))
  {
    match ChosenTree(svg, fallback, parse)
    case None => Err(FallbackUnparsable)
    case Some(tree) =>
      var ink := Threshold(render(tree, width, height));
      ChunksGrid(ink, width, height);
      ChunksConcat(ink, width);
      Ok(Chunks(ink, width))
  }

  /** A reply that parses is what gets drawn: the fallback is only
      consulted on a parse failure. */
  lemma ParsedReplyUsed<T(!new)>(svg: string, width: nat, height: nat, fallback: string, fallback': string,
                                 parse: string -> Option<T>, render: (T, nat, nat) -> seq<byte>)
    requires width > 0 && height > 0
    requires forall t :: |render(t, width, height)| == width * height
    requires parse(svg).Some?
    ensures SvgToBitmap(svg, width, height, fallback, parse, render) == SvgToBitmap(svg, width, height, fallback', parse, render)
    ensures Concat(SvgToBitmap(svg, width, height, fallback, parse, render).value) ==
            Threshold(render(parse(svg).value, width, height))
  {
  }

  // ---------------------------------------------------------------------
  // write_bitmap_to_file

  /** The grey level of a bitmap pixel: ink is black, the rest white. */
  function GreyOf(ink: bool): byte
  {
    if ink then 0 else 255
  }

  /** The width `write_bitmap_to_file` uses: that of the first row. */
  function ImageWidth(bitmap: seq<seq<bool>>): nat
    requires |bitmap| > 0
  {
    |bitmap[0]|
  }

  /** The rows fit the image: `put_pixel` panics on a pixel beyond the
      first row's width. */
  predicate FitsFirstRow(bitmap: seq<seq<bool>>)
    requires |bitmap| > 0
  {
    forall y :: 0 <= y < |bitmap| ==> |bitmap[y]| <= |bitmap[0]|
  }

  /** The pixel loop of `write_bitmap_to_file`, giving the grey image as
      rows of the first row's width. The image starts black, so a pixel
      beyond the end of a shorter row stays 0. Indexing `bitmap[0]` panics
      on an empty bitmap. */
  method BitmapToGrey(bitmap: seq<seq<bool>>) returns (grey: seq<seq<byte>>)
    requires |bitmap| > 0 && FitsFirstRow(bitmap)
    ensures |grey| == |bitmap|
    ensures forall y :: 0 <= y < |grey| ==> |grey[y]| == ImageWidth(bitmap)
    ensures forall y, x :: 0 <= y < |grey| && 0 <= x < ImageWidth(bitmap) ==>
              grey[y][x] == if x < |bitmap[y]| then GreyOf(bitmap[y][x]) else 0
  {
    var width := |bitmap[0]|;
    grey := [];
    var y := 0;
    while y < |bitmap|
      invariant y <= |bitmap| && |grey| == y
      invariant forall y' :: 0 <= y' < y ==> |grey[y']| == width
      invariant forall y', x :: 0 <= y' < y && 0 <= x < width ==>
                  grey[y'][x] == if x < |bitmap[y']| then GreyOf(bitmap[y'][x]) else 0
    {
      var row := bitmap[y];
      var line: seq<byte> := seq(width, _ => 0);
      var x := 0;
      while x < |row|
        invariant x <= |row| && |line| == width
        invariant forall x' :: 0 <= x' < x ==> line[x'] == GreyOf(row[x'])
        invariant forall x' :: x <= x' < width ==> line[x'] == 0
      {
        line := line[x := GreyOf(row[x])];
        x := x + 1;
      }
      grey := grey + [line];
      y := y + 1;
    }
  }

  /** Reading black back as ink recovers every pixel of the bitmap, with
      the unpainted tail of a short row reading as ink: the image is pure
      black and white. */
  lemma GreyRoundTrip(bitmap: seq<seq<bool>>, grey: seq<seq<byte>>)
    requires |bitmap| > 0 && FitsFirstRow(bitmap)
    requires |grey| == |bitmap|
    requires forall y :: 0 <= y < |grey| ==> |grey[y]| == ImageWidth(bitmap)
    requires forall y, x :: 0 <= y < |grey| && 0 <= x < ImageWidth(bitmap) ==>
               grey[y][x] == if x < |bitmap[y]| then GreyOf(bitmap[y][x]) else 0
    ensures forall y, x :: 0 <= y < |grey| && 0 <= x < ImageWidth(bitmap) ==>
              (grey[y][x] == 0 <==> x >= |bitmap[y]| || bitmap[y][x])
    ensures forall y, x :: 0 <= y < |grey| && 0 <= x < ImageWidth(bitmap) ==> (grey[y][x] == 0 || grey[y][x] == 255)
  {
  }

  // ---------------------------------------------------------------------
  // Settings

  type OptionMap = map<string, string>

  /** `option_or_env`: the option when given, else the environment
      variable; `unwrap` panics when that is unset, so one of the two is
      required. */
  function OptionOrEnv(options: OptionMap, key: string, envKey: string, env: map<string, string>): (r: string)
    requires key in options || envKey in env
    ensures key in options ==> r == options[key]
    ensures key !in options ==> r == env[envKey]
  {
    if key in options then options[key] else env[envKey]
  }

  /** `option_or_env_fallback`: the option, else the environment variable,
      else the fallback. */
  function OptionOrEnvFallback(options: OptionMap, key: string, envKey: string, env: map<string, string>,
                               fallback: string): (r: string)
    ensures key in options ==> r == options[key]
    ensures key !in options && envKey in env ==> r == env[envKey]
    ensures key !in options && envKey !in env ==> r == fallback
  {
    if key in options then options[key] else if envKey in env then env[envKey] else fallback
  }

  /** The option always wins, whatever the environment holds. */
  lemma OptionWins(options: OptionMap, key: string, envKey: string, env: map<string, string>, env': map<string, string>,
                   fallback: string)
    requires key in options
    ensures OptionOrEnv(options, key, envKey, env) == OptionOrEnv(options, key, envKey, env')
    ensures OptionOrEnvFallback(options, key, envKey, env, fallback) == OptionOrEnvFallback(options, key, envKey, env', fallback)
  {
  }

  /** Where `option_or_env` does not panic, the fallback variant agrees
      with it, whatever the fallback; the fallback shows only when neither
      source has the setting. */
  lemma FallbackAgrees(options: OptionMap, key: string, envKey: string, env: map<string, string>, fallback: string)
    ensures (key in options || envKey in env) ==>
              OptionOrEnvFallback(options, key, envKey, env, fallback) == OptionOrEnv(options, key, envKey, env)
    ensures (key !in options && envKey !in env) ==> OptionOrEnvFallback(options, key, envKey, env, fallback) == fallback
  {
  }
}
