/** The guards and attribute builders of `src/utils/image.ts`: option
    validation, `srcset` and `sizes`. Numbers are integers; the imported
    `isValidImageQuality` is the range 1 to 100 its error message names. */
module Image {
  import opened Wrappers
  import opened Strings
  import opened Checks

  // ---------------------------------------------------------------------
  // Options

  /** An optional number: `None` is `undefined`. */
  datatype Options = Options(src: string, alt: string, width: Option<int>, height: Option<int>,
                             quality: Option<int>)

  const SrcRequired: string := "图片源路径不能为空"
  const AltRequired: string := "图片替代文本不能为空"
  const WidthInvalid: string := "图片宽度必须大于0"
  const HeightInvalid: string := "图片高度必须大于0"
  const QualityInvalid: string := "图片质量必须在1-100之间"

  /** `isValidImageQuality` */
  predicate IsValidImageQuality(q: int) {
    1 <= q <= 100
  }

  /** A number that is present and not 0: JavaScript's truthiness of a
      number. */
  predicate Truthy(n: Option<int>) {
    n.Some? && n.value != 0
  }

  function OptionChecks(o: Options): seq<Check> {
    [ Check(|o.src| > 0, SrcRequired),
      Check(|o.alt| > 0, AltRequired),
      Check(!(Truthy(o.width) && o.width.value <= 0), WidthInvalid),
      Check(!(Truthy(o.height) && o.height.value <= 0), HeightInvalid),
      Check(!(Truthy(o.quality) && !IsValidImageQuality(o.quality.value)), QualityInvalid) ]
  }

  /** Valid options: a source and an alternative text; a width or height
      that is given is not negative; a quality that is given is 0 or lies in
      1 to 100. A 0 skips its check, since 0 is falsy. */
  predicate ValidOptions(o: Options) {
    |o.src| > 0 && |o.alt| > 0
    && (o.width.None? || o.width.value >= 0)
    && (o.height.None? || o.height.value >= 0)
    && (o.quality.None? || 0 <= o.quality.value <= 100)
  }

  /** `validateOptions`: the first failing check in source order (source,
      alternative text, width, height, quality). */
  function ValidateOptions(o: Options): (r: Outcome<string>)
    ensures r == Pass <==> ValidOptions(o)
    ensures |o.src| == 0 ==> r == Fail(SrcRequired)
    ensures |o.src| > 0 && |o.alt| == 0 ==> r == Fail(AltRequired)
    ensures r.Fail? ==> exists i | 0 <= i < 5 ::
      !OptionChecks(o)[i].ok && r.error == OptionChecks(o)[i].message
      && forall j | 0 <= j < i :: OptionChecks(o)[j].ok
  {
    FewPass(OptionChecks(o));
    FirstFailure(OptionChecks(o))
  }

  /** A zero width, height or quality passes, while a negative width is
      refused once source and text are present. */
  lemma ZeroIsNotRejected(src: string, alt: string)
    requires |src| > 0 && |alt| > 0
    ensures ValidateOptions(Options(src, alt, Some(0), Some(0), Some(0))) == Pass
    ensures ValidateOptions(Options(src, alt, Some(-1), None, None)) == Fail(WidthInvalid)
  {
    FailsAt(OptionChecks(Options(src, alt, Some(-1), None, None)), 2);
  }

  // ---------------------------------------------------------------------
  // srcset

  const DefaultFormat: string := "webp"
  const SizesRequired: string := "尺寸数组不能为空"
  const SizesNotPositive: string := "所有尺寸必须大于0"

  /** One `srcset` candidate: `src?w=size&format=format sizew`. */
  function SrcSetEntry(src: string, size: nat, format: string): string {
    src + "?w=" + NatToString(size) + "&format=" + format + " " + NatToString(size) + "w"
  }

  function SrcSetEntries(src: string, sizes: seq<int>, format: string): (r: seq<string>)
    requires forall i | 0 <= i < |sizes| :: sizes[i] > 0
    ensures |r| == |sizes|
  {
    seq(|sizes|, i requires 0 <= i < |sizes| => SrcSetEntry(src, sizes[i], format))
  }

  predicate AllPositive(xs: seq<int>) {
    forall i | 0 <= i < |xs| :: xs[i] > 0
  }

  /** `generateSrcSet(src, sizes, format)` (the default format is
      DefaultFormat): refuses an empty source, then an empty size list, then
      any size that is not positive; otherwise one candidate per size, in
      order, joined by ", ". */
  function GenerateSrcSet(src: string, sizes: seq<int>, format: string): (r: Result<string, string>)
    ensures src == "" ==> r == Err(SrcRequired)
    ensures src != "" && sizes == [] ==> r == Err(SizesRequired)
    ensures src != "" && sizes != [] && !AllPositive(sizes) ==> r == Err(SizesNotPositive)
    ensures r.Ok? <==> src != "" && sizes != [] && AllPositive(sizes)
    ensures r.Ok? ==> r.value == Join(SrcSetEntries(src, sizes, format), ", ")
  {
    if src == "" then Err(SrcRequired)
    else if sizes == [] then Err(SizesRequired)
    else if exists i | 0 <= i < |sizes| :: sizes[i] <= 0 then Err(SizesNotPositive)
    else Ok(Join(SrcSetEntries(src, sizes, format), ", "))
  }

  /** Each candidate says which width it is for: the number after `?w=` and
      before the final `w` reads back as the size. */
  lemma SrcSetEntryNamesSize(src: string, size: nat, format: string)
    ensures exists d :: (AllDigits(d) && ParseDigits(d) == size
                         && SrcSetEntry(src, size, format) == src + "?w=" + d + "&format=" + format + " " + d + "w")
  {
    ParseNatToString(size);
    var d := NatToString(size);
    assert SrcSetEntry(src, size, format) == src + "?w=" + d + "&format=" + format + " " + d + "w";
  }

  // ---------------------------------------------------------------------
  // sizes

  const BreakpointsRequired: string := "断点配置不能为空"

  /** One `sizes` entry: `(min-width: Bpx) Spx`. */
  function SizesEntry(breakpoint: string, size: nat): string {
    "(min-width: " + breakpoint + "px) " + NatToString(size) + "px"
  }

  /** `Object.entries(breakpoints)`: breakpoint and size pairs. */
  type Breakpoints = seq<(string, int)>

  predicate AllSizesPositive(bps: Breakpoints) {
    forall i | 0 <= i < |bps| :: bps[i].1 > 0
  }

  function SizesEntries(bps: Breakpoints): (r: seq<string>)
    requires AllSizesPositive(bps)
    ensures |r| == |bps|
  {
    seq(|bps|, i requires 0 <= i < |bps| => SizesEntry(bps[i].0, bps[i].1))
  }

  /** `generateSizes`: refuses an empty configuration, then any size that is
      not positive; otherwise one entry per breakpoint, in order, joined by
      ", ". */
  function GenerateSizes(bps: Breakpoints): (r: Result<string, string>)
    ensures bps == [] ==> r == Err(BreakpointsRequired)
    ensures bps != [] && !AllSizesPositive(bps) ==> r == Err(SizesNotPositive)
    ensures r.Ok? <==> bps != [] && AllSizesPositive(bps)
    ensures r.Ok? ==> r.value == Join(SizesEntries(bps), ", ")
  {
    if bps == [] then Err(BreakpointsRequired)
    else if exists i | 0 <= i < |bps| :: bps[i].1 <= 0 then Err(SizesNotPositive)
    else Ok(Join(SizesEntries(bps), ", "))
  }

  /** A single size gives a single candidate, with no separator. */
  lemma SingleSizeSrcSet(src: string, size: int, format: string)
    requires src != "" && size > 0
    ensures GenerateSrcSet(src, [size], format) == Ok(SrcSetEntry(src, size, format))
  {
  }
}
