/** The theme tokens of `src/config/theme.ts`: the regular-expression
    predicates for colours and lengths, the ordered validation of the theme,
    and the shipped theme. Only the validated parts of the theme are
    modelled. */
module ConfigTheme {
  import opened Wrappers
  import opened Strings
  import opened Checks

  // ---------------------------------------------------------------------
  // Colours

  /** `/^#([A-Fa-f0-9]{6}|[A-Fa-f0-9]{3})$/` */
  predicate IsValidHexColor(c: string) {
    (|c| == 4 || |c| == 7) && c[0] == '#' && AllHexDigits(c[1..])
  }

  /** `[0-9.]`: the characters an alpha value is made of. */
  predicate AlphaChar(c: char) {
    IsDigit(c) || c == '.'
  }

  /** `0|1|0?\.\d+` */
  predicate IsAlpha(a: string) {
    (|a| == 1 && (a[0] == '0' || a[0] == '1'))
    || (|a| >= 2 && a[0] == '.' && AllDigits(a[1..]))
    || (|a| >= 3 && a[0] == '0' && a[1] == '.' && AllDigits(a[2..]))
  }

  lemma AlphaChars(a: string)
    requires IsAlpha(a)
    ensures |a| > 0 && forall i | 0 <= i < |a| :: AlphaChar(a[i])
  {
    if |a| >= 3 && a[0] == '0' && a[1] == '.' && AllDigits(a[2..]) {
      forall i | 2 <= i < |a| ensures AlphaChar(a[i]) {
        assert a[i] == a[2..][i - 2];
      }
    }
    if |a| >= 2 && a[0] == '.' && AllDigits(a[1..]) {
      forall i | 1 <= i < |a| ensures AlphaChar(a[i]) {
        assert a[i] == a[1..][i - 1];
      }
    }
  }

  /** `\s*\d+\s*`: one colour channel with the spaces around it. */
  datatype Channel = Channel(before: string, digits: string, after: string)

  predicate ValidChannel(c: Channel) {
    IsBlank(c.before) && |c.digits| > 0 && AllDigits(c.digits) && IsBlank(c.after)
  }

  function FormatChannel(c: Channel): string {
    c.before + c.digits + c.after
  }

  /** The leading spaces of `s` and what follows them. */
  function Blanks(s: string): (r: (string, string))
    ensures IsBlank(r.0) && s == r.0 + r.1
    ensures r.1 == [] || !IsWhitespace(r.1[0])
  {
    var w := LeadingRun(s, IsWhitespace);
    assert s == w + s[|w|..];
    (w, s[|w|..])
  }

  lemma BlanksExact(t: string, rest: string)
    requires IsBlank(t)
    requires rest == [] || !IsWhitespace(rest[0])
    ensures Blanks(t + rest) == (t, rest)
  {
    LeadingRunExact(t, rest, IsWhitespace);
    assert (t + rest)[|t|..] == rest;
  }

  /** Read one channel off the front of `s`, greedily (the classes of spaces and
      digits are disjoint, so greedy reading is the only way to match). */
  function ParseChannel(s: string): (r: Option<(Channel, string)>)
    ensures r.Some? ==> ValidChannel(r.value.0)
    ensures r.Some? ==> FormatChannel(r.value.0) + r.value.1 == s
  {
    var (a, s1) := Blanks(s);
    var d := LeadingRun(s1, IsDigit);
    if |d| == 0 then None
    else
      var s2 := s1[|d|..];
      var (b, s3) := Blanks(s2);
      ChannelSplit(s, a, s1, d, b, s3);
      Some((Channel(a, d, b), s3))
  }

  lemma ChannelSplit(s: string, a: string, s1: string, d: string, b: string, s3: string)
    requires s == a + s1 && |d| <= |s1| && d == s1[..|d|] && s1[|d|..] == b + s3
    ensures FormatChannel(Channel(a, d, b)) + s3 == s
  {
    assert s1 == d + (b + s3);
    assert s == a + (d + (b + s3));
  }

  lemma ParseFormatChannel(c: Channel, rest: string)
    requires ValidChannel(c)
    requires rest == [] || (!IsWhitespace(rest[0]) && !IsDigit(rest[0]))
    ensures ParseChannel(FormatChannel(c) + rest) == Some((c, rest))
  {
    var s1 := c.digits + (c.after + rest);
    assert FormatChannel(c) + rest == c.before + s1;
    BlanksExact(c.before, s1);
    assert c.after + rest == [] || !IsDigit((c.after + rest)[0]);
    LeadingRunExact(c.digits, c.after + rest, IsDigit);
    assert s1[|c.digits|..] == c.after + rest;
    BlanksExact(c.after, rest);
  }

  /** `\s*(?:0|1|0?\.\d+)\s*\)`: the alpha value with its spaces, and the
      closing parenthesis. */
  datatype AlphaPart = AlphaPart(before: string, value: string, after: string)

  predicate ValidAlphaPart(a: AlphaPart) {
    IsBlank(a.before) && IsAlpha(a.value) && IsBlank(a.after)
  }

  function FormatAlphaPart(a: AlphaPart): string {
    a.before + (a.value + (a.after + ")"))
  }

  /** The alpha part: spaces, the maximal run of `[0-9.]` (which must be one
      of the alpha forms), spaces, ")". */
  function ParseAlphaPart(u: string): (r: Option<AlphaPart>)
    ensures r.Some? ==> ValidAlphaPart(r.value)
    ensures r.Some? ==> FormatAlphaPart(r.value) == u
  {
    var (w, u1) := Blanks(u);
    var a := LeadingRun(u1, AlphaChar);
    var u2 := u1[|a|..];
    var (w2, u3) := Blanks(u2);
    if IsAlpha(a) && u3 == ")" then
      AlphaSplit(u, w, u1, a, w2);
      Some(AlphaPart(w, a, w2))
    else None
  }

  lemma AlphaSplit(u: string, w: string, u1: string, a: string, w2: string)
    requires u == w + u1 && |a| <= |u1| && a == u1[..|a|] && u1[|a|..] == w2 + ")"
    ensures FormatAlphaPart(AlphaPart(w, a, w2)) == u
  {
    assert u1 == a + (w2 + ")");
  }

  lemma ParseFormatAlphaPart(p: AlphaPart)
    requires ValidAlphaPart(p)
    ensures ParseAlphaPart(FormatAlphaPart(p)) == Some(p)
  {
    AlphaChars(p.value);
    var u1 := p.value + (p.after + ")");
    assert FormatAlphaPart(p) == p.before + u1;
    BlanksExact(p.before, u1);
    LeadingRunExact(p.value, p.after + ")", AlphaChar);
    assert u1[|p.value|..] == p.after + ")";
    BlanksExact(p.after, ")");
  }

  /** A channel followed by ",". */
  function ChannelComma(s: string): (r: Option<(Channel, string)>)
    ensures r.Some? ==> ValidChannel(r.value.0)
    ensures r.Some? ==> FormatChannel(r.value.0) + ("," + r.value.1) == s
  {
    match ParseChannel(s)
    case None => None
    case Some((c, rest)) =>
      if |rest| > 0 && rest[0] == ',' then
        CommaSplit(rest);
        Some((c, rest[1..]))
      else None
  }

  lemma CommaSplit(rest: string)
    requires |rest| > 0 && rest[0] == ','
    ensures rest == "," + rest[1..]
  {
  }

  lemma ChannelCommaExact(c: Channel, rest: string)
    requires ValidChannel(c)
    ensures ChannelComma(FormatChannel(c) + ("," + rest)) == Some((c, rest))
  {
    ParseFormatChannel(c, "," + rest);
    assert ("," + rest)[1..] == rest;
  }

  /** The parts of a string matching
      `/^rgba\(\s*\d+\s*,\s*\d+\s*,\s*\d+\s*,\s*(?:0|1|0?\.\d+)\s*\)$/`:
      the red, green and blue channels, then the alpha part. */
  datatype Rgba = Rgba(red: Channel, green: Channel, blue: Channel, alpha: AlphaPart)

  predicate ValidRgba(p: Rgba) {
    ValidChannel(p.red) && ValidChannel(p.green) && ValidChannel(p.blue) && ValidAlphaPart(p.alpha)
  }

  function FormatRgba(p: Rgba): string {
    "rgba(" + (FormatChannel(p.red) + ("," + (FormatChannel(p.green) + ("," + (FormatChannel(p.blue)
      + ("," + FormatAlphaPart(p.alpha)))))))
  }

  /** Everything after "rgba(": three channels, each followed by ",", then the
      alpha part. */
  function ParseRgbaBody(u: string): (r: Option<Rgba>)
    ensures r.Some? ==> ValidRgba(r.value)
    ensures r.Some? ==> "rgba(" + u == FormatRgba(r.value)
  {
    match ChannelComma(u)
    case None => None
    case Some((red, u1)) =>
      match ChannelComma(u1)
      case None => None
      case Some((green, u2)) =>
        match ChannelComma(u2)
        case None => None
        case Some((blue, u3)) =>
          match ParseAlphaPart(u3)
          case None => None
          case Some(alpha) => Some(Rgba(red, green, blue, alpha))
  }

  function ParseRgba(s: string): (r: Option<Rgba>)
    ensures r.Some? ==> ValidRgba(r.value)
    ensures r.Some? ==> FormatRgba(r.value) == s
  {
    if !StartsWith(s, "rgba(") then None
    else
      assert s == "rgba(" + s[5..];
      ParseRgbaBody(s[5..])
  }

  /** `isValidRGBA` */
  predicate IsValidRGBA(c: string) {
    ParseRgba(c).Some?
  }

  /** Formatting well-formed parts and reading them back gives the same parts. */
  lemma RgbaRoundTrip(p: Rgba)
    requires ValidRgba(p)
    ensures ParseRgba(FormatRgba(p)) == Some(p)
  {
    var u3 := FormatAlphaPart(p.alpha);
    var u2 := FormatChannel(p.blue) + ("," + u3);
    var u1 := FormatChannel(p.green) + ("," + u2);
    var u := FormatChannel(p.red) + ("," + u1);
    var s := FormatRgba(p);
    assert s == "rgba(" + u;
    assert s[..5] == "rgba(" && s[5..] == u;
    ChannelCommaExact(p.red, u1);
    ChannelCommaExact(p.green, u2);
    ChannelCommaExact(p.blue, u3);
    ParseFormatAlphaPart(p.alpha);
  }

  /** `isValidRGBA` accepts exactly the strings the pattern describes. */
  lemma RgbaIff(c: string)
    ensures IsValidRGBA(c) <==> exists p :: ValidRgba(p) && FormatRgba(p) == c
  {
    if exists p :: ValidRgba(p) && FormatRgba(p) == c {
      var p :| ValidRgba(p) && FormatRgba(p) == c;
      RgbaRoundTrip(p);
    }
  }

  /** `isValidThemeColor` */
  predicate IsValidThemeColor(c: string) {
    IsValidHexColor(c) || IsValidRGBA(c)
  }

  // ---------------------------------------------------------------------
  // Lengths

  /** `/^\d+(?:u1|u2|...)$/` for units that start with a letter. */
  predicate HasUnit(s: string, units: set<string>) {
    var d := LeadingRun(s, IsDigit);
    |d| > 0 && s[|d|..] in units
  }

  /** Digits followed by a letter unit: accepted exactly when the unit is one
      of the allowed ones. */
  lemma HasUnitIff(d: string, u: string, units: set<string>)
    requires |d| > 0 && AllDigits(d)
    requires u == [] || !IsDigit(u[0])
    ensures HasUnit(d + u, units) <==> u in units
  {
    LeadingRunExact(d, u, IsDigit);
    assert (d + u)[|d|..] == u;
  }

  const SpacingUnits: set<string> := {"px", "rem", "em"}

  /** `isValidSpacing`: `/^\d+(?:px|rem|em)$/` */
  predicate IsValidSpacing(v: string) {
    HasUnit(v, SpacingUnits)
  }

  /** `/^\d+px$/` */
  predicate IsPixels(v: string) {
    HasUnit(v, {"px"})
  }

  /** `/^\d+ms$/` */
  predicate IsMillis(v: string) {
    HasUnit(v, {"ms"})
  }

  // ---------------------------------------------------------------------
  // The theme

  datatype ColorConfig = ColorConfig(base: string, rgb: Option<string>, lighter: Option<string>,
                                     darker: Option<string>, darkerRgb: Option<string>)
  datatype Background = Background(base: string, dark: string, light: string)
  datatype TextColors = TextColors(base: string, primary: string, muted: string)
  datatype Accent = Accent(base: string, blue: string, green: string, yellow: string, red: string)
  datatype Card = Card(base: string, hover: string)
  datatype Colors = Colors(primary: ColorConfig, secondary: string, background: Background,
                           text: TextColors, accent: Accent, card: Card)
  /** `sm`, `md`, `lg`, `xl`, `2xl`, in `Object.values` order. */
  datatype Breakpoints = Breakpoints(sm: string, md: string, lg: string, xl: string, xxl: string)
  datatype Spacing = Spacing(containerPadding: string, containerMaxWidth: string, sectionPadding: string)
  datatype Durations = Durations(fast: string, normal: string, slow: string)
  datatype Theme = Theme(colors: Colors, breakpoints: Breakpoints, spacing: Spacing, durations: Durations)

  /** An optional colour that JavaScript sees as truthy. */
  predicate Present(o: Option<string>) {
    o.Some? && o.value != ""
  }

  // The messages of `validateThemeConfig`.
  const PrimaryInvalid: string := "Invalid primary color"
  const PrimaryLighterInvalid: string := "Invalid primary lighter color"
  const PrimaryDarkerInvalid: string := "Invalid primary darker color"
  const SecondaryInvalid: string := "Invalid secondary color"
  const BackgroundInvalid: string := "Invalid background color"
  const DarkBackgroundInvalid: string := "Invalid dark background color"
  const LightBackgroundInvalid: string := "Invalid light background color"
  const TextInvalid: string := "Invalid text color"
  const PrimaryTextInvalid: string := "Invalid primary text color"
  const MutedTextInvalid: string := "Invalid muted text color"
  const AccentInvalid: string := "Invalid accent color"
  const BlueAccentInvalid: string := "Invalid blue accent color"
  const GreenAccentInvalid: string := "Invalid green accent color"
  const YellowAccentInvalid: string := "Invalid yellow accent color"
  const RedAccentInvalid: string := "Invalid red accent color"
  const CardInvalid: string := "Invalid card color"
  const CardHoverInvalid: string := "Invalid card hover color"
  const BreakpointPrefix: string := "Invalid breakpoint value: "
  const ContainerPaddingInvalid: string := "Invalid container padding"
  const ContainerMaxWidthInvalid: string := "Invalid container max width"
  const SectionPaddingInvalid: string := "Invalid section padding"
  const DurationPrefix: string := "Invalid animation duration: "

  function PrimaryChecks(c: Colors): seq<Check> {
    [ Check(IsValidThemeColor(c.primary.base), PrimaryInvalid),
      Check(!Present(c.primary.lighter) || IsValidThemeColor(c.primary.lighter.value), PrimaryLighterInvalid),
      Check(!Present(c.primary.darker) || IsValidThemeColor(c.primary.darker.value), PrimaryDarkerInvalid) ]
  }

  function BackgroundChecks(c: Colors): seq<Check> {
    [ Check(IsValidThemeColor(c.secondary), SecondaryInvalid),
      Check(IsValidThemeColor(c.background.base), BackgroundInvalid),
      Check(IsValidThemeColor(c.background.dark), DarkBackgroundInvalid),
      Check(IsValidThemeColor(c.background.light), LightBackgroundInvalid) ]
  }

  function TextChecks(c: Colors): seq<Check> {
    [ Check(IsValidThemeColor(c.text.base), TextInvalid),
      Check(IsValidThemeColor(c.text.primary), PrimaryTextInvalid),
      Check(IsValidThemeColor(c.text.muted), MutedTextInvalid) ]
  }

  function AccentChecks(c: Colors): seq<Check> {
    [ Check(IsValidThemeColor(c.accent.base), AccentInvalid),
      Check(IsValidThemeColor(c.accent.blue), BlueAccentInvalid),
      Check(IsValidThemeColor(c.accent.green), GreenAccentInvalid),
      Check(IsValidThemeColor(c.accent.yellow), YellowAccentInvalid),
      Check(IsValidThemeColor(c.accent.red), RedAccentInvalid) ]
  }

  function CardChecks(c: Colors): seq<Check> {
    [ Check(IsValidRGBA(c.card.base), CardInvalid),
      Check(IsValidRGBA(c.card.hover), CardHoverInvalid) ]
  }

  /** The checks of `validateColors`, in source order. */
  function ColorChecks(c: Colors): seq<Check> {
    PrimaryChecks(c) + BackgroundChecks(c) + TextChecks(c) + AccentChecks(c) + CardChecks(c)
  }

  function BreakpointValues(b: Breakpoints): seq<string> {
    [b.sm, b.md, b.lg, b.xl, b.xxl]
  }

  function DurationValues(d: Durations): seq<string> {
    [d.fast, d.normal, d.slow]
  }

  /** The checks of a `forEach` over values, each with its own message. */
  function ValueChecks(vs: seq<string>, ok: string -> bool, message: string): (cs: seq<Check>)
    ensures |cs| == |vs| && forall i | 0 <= i < |vs| :: cs[i] == Check(ok(vs[i]), message + vs[i])
  {
    seq(|vs|, i requires 0 <= i < |vs| => Check(ok(vs[i]), message + vs[i]))
  }

  function SpacingChecks(s: Spacing): seq<Check> {
    [ Check(IsValidSpacing(s.containerPadding), ContainerPaddingInvalid),
      Check(IsValidSpacing(s.containerMaxWidth), ContainerMaxWidthInvalid),
      Check(IsValidSpacing(s.sectionPadding), SectionPaddingInvalid) ]
  }

  function ThemeChecks(t: Theme): seq<Check> {
    ColorChecks(t.colors)
    + ValueChecks(BreakpointValues(t.breakpoints), IsPixels, BreakpointPrefix)
    + SpacingChecks(t.spacing)
    + ValueChecks(DurationValues(t.durations), IsMillis, DurationPrefix)
  }

  predicate ValidPrimary(c: Colors) {
    IsValidThemeColor(c.primary.base)
    && (!Present(c.primary.lighter) || IsValidThemeColor(c.primary.lighter.value))
    && (!Present(c.primary.darker) || IsValidThemeColor(c.primary.darker.value))
  }

  predicate ValidBackground(c: Colors) {
    IsValidThemeColor(c.secondary)
    && IsValidThemeColor(c.background.base) && IsValidThemeColor(c.background.dark)
    && IsValidThemeColor(c.background.light)
  }

  predicate ValidText(c: Colors) {
    IsValidThemeColor(c.text.base) && IsValidThemeColor(c.text.primary) && IsValidThemeColor(c.text.muted)
  }

  predicate ValidAccent(c: Colors) {
    IsValidThemeColor(c.accent.base) && IsValidThemeColor(c.accent.blue) && IsValidThemeColor(c.accent.green)
    && IsValidThemeColor(c.accent.yellow) && IsValidThemeColor(c.accent.red)
  }

  /** The conditions on every colour but the cards. */
  predicate ValidPlainColors(c: Colors) {
    ValidPrimary(c) && ValidBackground(c) && ValidText(c) && ValidAccent(c)
  }

  /** The conditions on the colours: the cards must be rgba. */
  predicate ValidColors(c: Colors) {
    ValidPlainColors(c) && IsValidRGBA(c.card.base) && IsValidRGBA(c.card.hover)
  }

  /** A valid theme: valid colours (rgba for the cards), pixel breakpoints,
      spacings with a unit and millisecond durations. */
  predicate ValidTheme(t: Theme) {
    ValidColors(t.colors)
    && (forall v | v in BreakpointValues(t.breakpoints) :: IsPixels(v))
    && IsValidSpacing(t.spacing.containerPadding) && IsValidSpacing(t.spacing.containerMaxWidth)
    && IsValidSpacing(t.spacing.sectionPadding)
    && (forall v | v in DurationValues(t.durations) :: IsMillis(v))
  }

  lemma PrimaryChecksPass(c: Colors)
    ensures FirstFailure(PrimaryChecks(c)) == Pass <==> ValidPrimary(c)
  {
    FewPass(PrimaryChecks(c));
  }

  lemma BackgroundChecksPass(c: Colors)
    ensures FirstFailure(BackgroundChecks(c)) == Pass <==> ValidBackground(c)
  {
    FewPass(BackgroundChecks(c));
  }

  lemma TextChecksPass(c: Colors)
    ensures FirstFailure(TextChecks(c)) == Pass <==> ValidText(c)
  {
    FewPass(TextChecks(c));
  }

  lemma AccentChecksPass(c: Colors)
    ensures FirstFailure(AccentChecks(c)) == Pass <==> ValidAccent(c)
  {
    FewPass(AccentChecks(c));
  }

  lemma CardChecksPass(c: Colors)
    ensures FirstFailure(CardChecks(c)) == Pass <==> IsValidRGBA(c.card.base) && IsValidRGBA(c.card.hover)
  {
    FewPass(CardChecks(c));
  }

  /** Each group of colour checks passes exactly when its colours are valid. */
  lemma GroupChecksPass(c: Colors)
    ensures FirstFailure(PrimaryChecks(c)) == Pass <==> ValidPrimary(c)
    ensures FirstFailure(BackgroundChecks(c)) == Pass <==> ValidBackground(c)
    ensures FirstFailure(TextChecks(c)) == Pass <==> ValidText(c)
    ensures FirstFailure(AccentChecks(c)) == Pass <==> ValidAccent(c)
    ensures FirstFailure(CardChecks(c)) == Pass <==> IsValidRGBA(c.card.base) && IsValidRGBA(c.card.hover)
  {
    PrimaryChecksPass(c);
    BackgroundChecksPass(c);
    TextChecksPass(c);
    AccentChecksPass(c);
    CardChecksPass(c);
  }

  lemma ColorChecksPass(c: Colors)
    ensures FirstFailure(ColorChecks(c)) == Pass <==> ValidColors(c)
  {
    GroupChecksPass(c);
    var p, b, t, a, k := PrimaryChecks(c), BackgroundChecks(c), TextChecks(c), AccentChecks(c), CardChecks(c);
    FirstFailureAppend(p + b + t + a, k);
    FirstFailureAppend(p + b + t, a);
    FirstFailureAppend(p + b, t);
    FirstFailureAppend(p, b);
  }

  lemma ValueChecksPass(vs: seq<string>, ok: string -> bool, message: string)
    ensures FirstFailure(ValueChecks(vs, ok, message)) == Pass <==> forall v | v in vs :: ok(v)
  {
    var cs := ValueChecks(vs, ok, message);
    if forall i | 0 <= i < |cs| :: cs[i].ok {
      forall v | v in vs ensures ok(v) {
        var i :| 0 <= i < |vs| && vs[i] == v;
        assert cs[i].ok;
      }
    }
  }

  lemma SpacingChecksPass(sp: Spacing)
    ensures FirstFailure(SpacingChecks(sp)) == Pass
        <==> IsValidSpacing(sp.containerPadding) && IsValidSpacing(sp.containerMaxWidth)
             && IsValidSpacing(sp.sectionPadding)
  {
    var cs := SpacingChecks(sp);
    assert cs[0].ok && cs[1].ok && cs[2].ok ==> forall i | 0 <= i < |cs| :: cs[i].ok;
  }

  /** The four groups of theme checks pass exactly when the theme is valid. */
  lemma ThemeChecksPass(t: Theme)
    ensures FirstFailure(ThemeChecks(t)) == Pass <==> ValidTheme(t)
  {
    var a := ColorChecks(t.colors);
    var b := ValueChecks(BreakpointValues(t.breakpoints), IsPixels, BreakpointPrefix);
    var c := SpacingChecks(t.spacing);
    var d := ValueChecks(DurationValues(t.durations), IsMillis, DurationPrefix);
    FirstOfFour(a, b, c, d);
    ColorChecksPass(t.colors);
    ValueChecksPass(BreakpointValues(t.breakpoints), IsPixels, BreakpointPrefix);
    SpacingChecksPass(t.spacing);
    ValueChecksPass(DurationValues(t.durations), IsMillis, DurationPrefix);
  }

  /** With valid colours, a bad `sm` breakpoint is the failure reported. */
  lemma BreakpointFailsFirst(t: Theme)
    requires ValidColors(t.colors) && !IsPixels(t.breakpoints.sm)
    ensures FirstFailure(ThemeChecks(t)) == Fail(BreakpointPrefix + t.breakpoints.sm)
  {
    var a := ColorChecks(t.colors);
    var b := ValueChecks(BreakpointValues(t.breakpoints), IsPixels, BreakpointPrefix);
    var c := SpacingChecks(t.spacing);
    var d := ValueChecks(DurationValues(t.durations), IsMillis, DurationPrefix);
    ColorChecksPass(t.colors);
    FirstOfFour(a, b, c, d);
    FailsAt(b, 0);
  }

  /** A bad primary colour is the failure reported. */
  lemma PrimaryFailsFirst(t: Theme)
    requires !IsValidThemeColor(t.colors.primary.base)
    ensures FirstFailure(ThemeChecks(t)) == Fail(PrimaryInvalid)
  {
    FailsAt(ThemeChecks(t), 0);
  }

  /** `validateThemeConfig`: the first failing check in source order, which
      means that the theme passes exactly when it is valid. */
  function ValidateThemeConfig(t: Theme): (r: Outcome<string>)
    ensures r == Pass <==> ValidTheme(t)
    ensures !IsValidThemeColor(t.colors.primary.base) ==> r == Fail(PrimaryInvalid)
    ensures ValidColors(t.colors) && !IsPixels(t.breakpoints.sm)
      ==> r == Fail(BreakpointPrefix + t.breakpoints.sm)
    ensures r.Fail? ==> exists i | 0 <= i < |ThemeChecks(t)| ::
      !ThemeChecks(t)[i].ok && r.error == ThemeChecks(t)[i].message
      && forall j | 0 <= j < i :: ThemeChecks(t)[j].ok
  {
    ThemeChecksPass(t);
    if !IsValidThemeColor(t.colors.primary.base) then PrimaryFailsFirst(t); FirstFailure(ThemeChecks(t))
    else if ValidColors(t.colors) && !IsPixels(t.breakpoints.sm) then BreakpointFailsFirst(t); FirstFailure(ThemeChecks(t))
    else FirstFailure(ThemeChecks(t))
  }

  const ShippedColors := Colors(
    ColorConfig("#6366f1", Some("99, 102, 241"), Some("#818cf8"), Some("#4f46e5"), Some("79, 70, 229")),
    "#10b981",
    Background("#0a0a0a", "#0a0a0a", "#1a1a1a"),
    TextColors("#ffffff", "#ffffff", "#a3a3a3"),
    Accent("#3b82f6", "#60a5fa", "#34d399", "#fbbf24", "#ef4444"),
    Card("rgba(26, 26, 26, 0.8)", "rgba(26, 26, 26, 0.9)"))
  const ShippedBreakpoints := Breakpoints("640px", "768px", "1024px", "1280px", "1536px")
  const ShippedSpacing := Spacing("1rem", "1280px", "4rem")
  const ShippedDurations := Durations("150ms", "300ms", "500ms")

  /** `themeConfig` */
  const ShippedTheme := Theme(ShippedColors, ShippedBreakpoints, ShippedSpacing, ShippedDurations)

  /** "rgba(r, g, b, a)" with one space after each comma, as the theme writes
      its card colours, is accepted whenever its numbers are well formed. */
  lemma SpacedRgbaValid(r: string, g: string, b: string, a: string)
    requires |r| > 0 && AllDigits(r) && |g| > 0 && AllDigits(g) && |b| > 0 && AllDigits(b)
    requires IsAlpha(a)
    ensures IsValidRGBA("rgba(" + r + ", " + g + ", " + b + ", " + a + ")")
  {
    var p := Rgba(Channel("", r, ""), Channel(" ", g, ""), Channel(" ", b, ""), AlphaPart(" ", a, ""));
    assert FormatRgba(p) == "rgba(" + r + ", " + g + ", " + b + ", " + a + ")";
    RgbaRoundTrip(p);
  }

  lemma CardColorValid(s: string, a: string)
    requires IsAlpha(a)
    requires s == "rgba(" + "26" + ", " + "26" + ", " + "26" + ", " + a + ")"
    ensures IsValidRGBA(s)
  {
    SpacedRgbaValid("26", "26", "26", a);
  }

  lemma CardBaseValid(v: string)
    requires v == "rgba(26, 26, 26, 0.8)"
    ensures IsValidRGBA(v)
  {
    CardColorValid(v, "0.8");
  }

  lemma CardHoverValid(v: string)
    requires v == "rgba(26, 26, 26, 0.9)"
    ensures IsValidRGBA(v)
  {
    CardColorValid(v, "0.9");
  }

  /** Digits followed by a unit of the set. */
  lemma UnitValid(v: string, d: string, u: string, units: set<string>)
    requires v == d + u
    requires |d| > 0 && AllDigits(d) && u in units && |u| > 0 && !IsDigit(u[0])
    ensures HasUnit(v, units)
  {
    HasUnitIff(d, u, units);
  }

  // Each shipped length on its own, which keeps every proof small.
  lemma Px640(v: string) requires v == "640px" ensures IsPixels(v) { UnitValid(v, "640", "px", {"px"}); }
  lemma Px768(v: string) requires v == "768px" ensures IsPixels(v) { UnitValid(v, "768", "px", {"px"}); }
  lemma Px1024(v: string) requires v == "1024px" ensures IsPixels(v) { UnitValid(v, "1024", "px", {"px"}); }
  lemma Px1280(v: string) requires v == "1280px" ensures IsPixels(v) { UnitValid(v, "1280", "px", {"px"}); }
  lemma Px1536(v: string) requires v == "1536px" ensures IsPixels(v) { UnitValid(v, "1536", "px", {"px"}); }
  lemma Rem1(v: string) requires v == "1rem" ensures IsValidSpacing(v) { UnitValid(v, "1", "rem", SpacingUnits); }
  lemma Rem4(v: string) requires v == "4rem" ensures IsValidSpacing(v) { UnitValid(v, "4", "rem", SpacingUnits); }
  lemma Width1280(v: string) requires v == "1280px" ensures IsValidSpacing(v) { UnitValid(v, "1280", "px", SpacingUnits); }
  lemma Ms150(v: string) requires v == "150ms" ensures IsMillis(v) { UnitValid(v, "150", "ms", {"ms"}); }
  lemma Ms300(v: string) requires v == "300ms" ensures IsMillis(v) { UnitValid(v, "300", "ms", {"ms"}); }
  lemma Ms500(v: string) requires v == "500ms" ensures IsMillis(v) { UnitValid(v, "500", "ms", {"ms"}); }

  lemma ShippedBreakpointsValid(b: Breakpoints)
    requires b == ShippedBreakpoints
    ensures forall v | v in BreakpointValues(b) :: IsPixels(v)
  {
    Px640(b.sm);
    Px768(b.md);
    Px1024(b.lg);
    Px1280(b.xl);
    Px1536(b.xxl);
    AllBreakpointsPixels(b);
  }

  lemma AllBreakpointsPixels(b: Breakpoints)
    requires IsPixels(b.sm) && IsPixels(b.md) && IsPixels(b.lg) && IsPixels(b.xl) && IsPixels(b.xxl)
    ensures forall v | v in BreakpointValues(b) :: IsPixels(v)
  {
  }

  lemma ShippedSpacingValid(sp: Spacing)
    requires sp == ShippedSpacing
    ensures IsValidSpacing(sp.containerPadding) && IsValidSpacing(sp.containerMaxWidth)
    ensures IsValidSpacing(sp.sectionPadding)
  {
    Rem1(sp.containerPadding);
    Width1280(sp.containerMaxWidth);
    Rem4(sp.sectionPadding);
  }

  lemma ShippedDurationsValid(d: Durations)
    requires d == ShippedDurations
    ensures forall v | v in DurationValues(d) :: IsMillis(v)
  {
    Ms150(d.fast);
    Ms300(d.normal);
    Ms500(d.slow);
  }

  lemma HexIsThemeColor(c: string)
    requires IsValidHexColor(c)
    ensures IsValidThemeColor(c)
  {
  }

  lemma ShippedPrimaryValid(p: ColorConfig, secondary: string)
    requires p == ShippedColors.primary && secondary == ShippedColors.secondary
    ensures IsValidThemeColor(p.base) && IsValidThemeColor(p.lighter.value) && IsValidThemeColor(p.darker.value)
    ensures IsValidThemeColor(secondary)
  {
    HexIsThemeColor(p.base);
    HexIsThemeColor(p.lighter.value);
    HexIsThemeColor(p.darker.value);
    HexIsThemeColor(secondary);
  }

  lemma ShippedBackgroundValid(bg: Background, tx: TextColors)
    requires bg == ShippedColors.background && tx == ShippedColors.text
    ensures IsValidThemeColor(bg.base) && IsValidThemeColor(bg.dark) && IsValidThemeColor(bg.light)
    ensures IsValidThemeColor(tx.base) && IsValidThemeColor(tx.primary) && IsValidThemeColor(tx.muted)
  {
    HexIsThemeColor(bg.base);
    HexIsThemeColor(bg.dark);
    HexIsThemeColor(bg.light);
    HexIsThemeColor(tx.base);
    HexIsThemeColor(tx.primary);
    HexIsThemeColor(tx.muted);
  }

  lemma ShippedAccentValid(ac: Accent)
    requires ac == ShippedColors.accent
    ensures IsValidThemeColor(ac.base) && IsValidThemeColor(ac.blue) && IsValidThemeColor(ac.green)
    ensures IsValidThemeColor(ac.yellow) && IsValidThemeColor(ac.red)
  {
    HexIsThemeColor(ac.base);
    HexIsThemeColor(ac.blue);
    HexIsThemeColor(ac.green);
    HexIsThemeColor(ac.yellow);
    HexIsThemeColor(ac.red);
  }

  lemma ShippedColorsValid(c: Colors)
    requires c == ShippedColors
    ensures ValidColors(c)
  {
    ShippedPrimaryValid(c.primary, c.secondary);
    ShippedBackgroundValid(c.background, c.text);
    ShippedAccentValid(c.accent);
    CardBaseValid(c.card.base);
    CardHoverValid(c.card.hover);
  }

  /** The shipped theme passes its own validation. */
  lemma ShippedThemePasses(t: Theme)
    requires t == ShippedTheme
    ensures ValidateThemeConfig(t) == Pass
  {
    ShippedColorsValid(t.colors);
    ShippedBreakpointsValid(t.breakpoints);
    ShippedSpacingValid(t.spacing);
    ShippedDurationsValid(t.durations);
  }

  /** A hex colour is never an rgba colour. */
  lemma HexNotRgba(c: string)
    requires IsValidHexColor(c)
    ensures !IsValidRGBA(c)
  {
    assert !StartsWith(c, "rgba(") by {
      if |c| >= 5 {
        assert c[..5][0] == '#';
      }
    }
  }

  /** A card colour must be rgba: with every other colour valid, a hex card
      colour (a valid theme colour everywhere else) fails with the card
      message. */
  lemma CardMustBeRgba(t: Theme)
    requires ValidPlainColors(t.colors) && IsValidHexColor(t.colors.card.base)
    ensures IsValidThemeColor(t.colors.card.base)
    ensures ValidateThemeConfig(t) == Fail(CardInvalid)
  {
    var c := t.colors;
    HexNotRgba(c.card.base);
    var p, b, tx, ac, k := PrimaryChecks(c), BackgroundChecks(c), TextChecks(c), AccentChecks(c), CardChecks(c);
    assert FirstFailure(p + b + tx + ac) == Pass by {
      GroupChecksPass(c);
      PassAppend(p, b);
      PassAppend(p + b, tx);
      PassAppend(p + b + tx, ac);
    }
    assert FirstFailure(ColorChecks(c)) == Fail(CardInvalid) by {
      FailsAt(k, 0);
      FirstFailureAppend(p + b + tx + ac, k);
    }
    FirstOfFour(ColorChecks(c), ValueChecks(BreakpointValues(t.breakpoints), IsPixels, BreakpointPrefix),
                SpacingChecks(t.spacing), ValueChecks(DurationValues(t.durations), IsMillis, DurationPrefix));
  }

  /** "1.5rem" is not a spacing: only whole numbers take a unit. */
  lemma FractionalSpacingRejected()
    ensures !IsValidSpacing("1.5rem")
  {
    LeadingRunExact("1", ".5rem", IsDigit);
  }

  /** The alpha forms: "0", "1" and a fraction with an optional leading
      zero; "1.0" is not one of them. */
  lemma AlphaForms()
    ensures IsAlpha("0") && IsAlpha("1") && IsAlpha(".5") && IsAlpha("0.8")
    ensures !IsAlpha("1.0") && !IsAlpha("00.5") && !IsAlpha("")
  {
  }
}
