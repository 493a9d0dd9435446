/**
 * The export generator: the CSS, HTML and React-source artifacts derived
 * from one settings snapshot, and the tab, extension and filename rule of
 * the export dialog.  Each style decision is kept as a record (which
 * declarations are present and with what value); an artifact is the
 * sequence of lines those records render to, joined with newlines.
 */
module Export {
  import opened Numbers
  import opened Strings
  import opened Types
  import opened Preview

  // ---------------------------------------------------------------------
  // The `.headline` rule
  // ---------------------------------------------------------------------

  /** The export writes a background colour for every value except "transparent". */
  predicate ExportHasBackground(s: HeadlineSettings) {
    s.backgroundColor != "transparent"
  }

  /**
   * The declarations of the `.headline` rule.  The gradient and the plain
   * colour exclude each other; background colour, shadow and stroke are
   * each present exactly when their condition holds.
   */
  function CssStyle(s: HeadlineSettings): (r: Style)
    ensures r.color.Some? <==> !s.gradientEnabled
    ensures r.color.Some? ==> r.color.value == s.color
    ensures r.background.Some? <==> s.gradientEnabled
    ensures s.gradientEnabled ==>
      && r.background == Some(GradientCss(s.gradientDirection, s.gradientColors))
      && r.backgroundClip == Some("text")
      && r.WebkitBackgroundClip == Some("text")
      && r.WebkitTextFillColor == Some("transparent")
    ensures !s.gradientEnabled ==>
      r.backgroundClip.None? && r.WebkitBackgroundClip.None? && r.WebkitTextFillColor.None?
    ensures r.backgroundSize.None?
    ensures r.backgroundColor.Some? <==> ExportHasBackground(s)
    ensures r.backgroundColor.Some? ==> r.backgroundColor.value == s.backgroundColor
    ensures r.textShadow.Some? <==> s.textShadow
    ensures r.textShadow.Some? ==> r.textShadow.value == ShadowCss(s)
    ensures r.WebkitTextStroke.Some? <==> s.textOutline
    ensures r.WebkitTextStroke.Some? ==> r.WebkitTextStroke.value == StrokeCss(s)
  {
    var g := s.gradientEnabled;
    EmptyStyle.(
      fontSize := Some(Px(s.fontSize)),
      fontFamily := Some("'" + s.fontFamily + "', sans-serif"),
      fontWeight := Some(Number(s.fontWeight)),
      textAlign := Some(TextAlignToken(s.textAlign)),
      letterSpacing := Some(Px(s.letterSpacing)),
      lineHeight := Some(Number(s.lineHeight)),
      padding := Some(Px(s.padding)),
      margin := Some(Px(s.margin)),
      background := if g then Some(GradientCss(s.gradientDirection, s.gradientColors)) else None,
      backgroundClip := if g then Some("text") else None,
      WebkitBackgroundClip := if g then Some("text") else None,
      WebkitTextFillColor := if g then Some("transparent") else None,
      color := if g then None else Some(s.color),
      backgroundColor := if ExportHasBackground(s) then Some(s.backgroundColor) else None,
      textShadow := if s.textShadow then Some(ShadowCss(s)) else None,
      WebkitTextStroke := if s.textOutline then Some(StrokeCss(s)) else None)
  }

  /**
   * The stylesheet re-derives the preview's decisions: it is the preview
   * style with the font family quoted for CSS, without the background
   * size, and with the export's own background condition.
   */
  lemma CssMatchesPreview(s: HeadlineSettings)
    ensures CssStyle(s) == PreviewStyle(s).(
      fontFamily := Some("'" + s.fontFamily + "', sans-serif"),
      backgroundSize := None,
      backgroundColor := if ExportHasBackground(s) then Some(s.backgroundColor) else None)
  {
  }

  /**
   * Where the two background conditions part: every background the preview
   * paints is exported, and the export writes one the preview omits exactly
   * when the colour is the empty string.
   */
  lemma BackgroundConditions(s: HeadlineSettings)
    ensures PreviewStyle(s).backgroundColor.Some? ==> CssStyle(s).backgroundColor == PreviewStyle(s).backgroundColor
    ensures (CssStyle(s).backgroundColor.Some? && PreviewStyle(s).backgroundColor.None?) <==> s.backgroundColor == ""
  {
  }

  /** The React style object: the CSS decisions with the font family quoted as one JavaScript string. */
  function ReactStyle(s: HeadlineSettings): (r: Style)
    ensures r.fontFamily == Some(s.fontFamily + ", sans-serif")
  {
    var g := s.gradientEnabled;
    EmptyStyle.(
      fontSize := Some(Px(s.fontSize)),
      fontFamily := Some(s.fontFamily + ", sans-serif"),
      fontWeight := Some(Number(s.fontWeight)),
      textAlign := Some(TextAlignToken(s.textAlign)),
      letterSpacing := Some(Px(s.letterSpacing)),
      lineHeight := Some(Number(s.lineHeight)),
      padding := Some(Px(s.padding)),
      margin := Some(Px(s.margin)),
      background := if g then Some(GradientCss(s.gradientDirection, s.gradientColors)) else None,
      backgroundClip := if g then Some("text") else None,
      WebkitBackgroundClip := if g then Some("text") else None,
      WebkitTextFillColor := if g then Some("transparent") else None,
      color := if g then None else Some(s.color),
      backgroundColor := if s.backgroundColor != "transparent" then Some(s.backgroundColor) else None,
      textShadow := if s.textShadow then Some(ShadowCss(s)) else None,
      WebkitTextStroke := if s.textOutline then Some(StrokeCss(s)) else None)
  }

  /** The React artifact encodes the same gradient, background, shadow and outline decisions as the CSS. */
  lemma ReactMatchesCss(s: HeadlineSettings)
    ensures ReactStyle(s) == CssStyle(s).(fontFamily := Some(s.fontFamily + ", sans-serif"))
  {
  }

  // ---------------------------------------------------------------------
  // Animation rule and keyframes
  // ---------------------------------------------------------------------

  /** One step of a keyframes block; a property is written exactly when it is Some. */
  datatype Keyframe = Keyframe(at: string, opacity: Option<int>, translateY: Option<int>, textShadow: Option<string>)

  /** The body of `@keyframes <type>`: only fade-in, slide-up and glow have one. */
  function Keyframes(t: AnimationType): (r: seq<Keyframe>)
    ensures r == [] <==> t !in {FadeIn, SlideUp, Glow}
    ensures t == FadeIn ==> r == [Keyframe("from", Some(0), Some(20), None), Keyframe("to", Some(1), Some(0), None)]
    ensures t == SlideUp ==> r == [Keyframe("from", Some(0), Some(50), None), Keyframe("to", Some(1), Some(0), None)]
    ensures t == Glow ==>
      && |r| == 2 && r[0].at == "0%" && r[1].at == "100%"
      && (forall i :: 0 <= i < |r| ==> r[i].textShadow.Some? && r[i].opacity.None? && r[i].translateY.None?)
  {
    match t
    case FadeIn => [Keyframe("from", Some(0), Some(20), None), Keyframe("to", Some(1), Some(0), None)]
    case SlideUp => [Keyframe("from", Some(0), Some(50), None), Keyframe("to", Some(1), Some(0), None)]
    case Glow =>
      [Keyframe("0%", None, None, Some("0 0 5px currentColor")),
       Keyframe("100%", None, None, Some("0 0 20px currentColor, 0 0 30px currentColor"))]
    case _ => []
  }

  /** The value of the `animation` declaration. */
  function AnimationValue(s: HeadlineSettings): string {
    AnimationToken(s.animationType) + " " + NumToStr(s.animationDuration) + "s ease-in-out "
      + NumToStr(s.animationDelay) + "s"
  }

  /** "translateY(0)" for no offset, "translateY(<k>px)" otherwise. */
  function TranslateText(k: int): string {
    if k == 0 then "translateY(0)" else "translateY(" + IntToStr(k) + "px)"
  }

  function KeyframeLine(k: Keyframe): string {
    "    " + k.at + " { "
      + (if k.opacity.Some? then "opacity: " + IntToStr(k.opacity.value) + "; " else "")
      + (if k.translateY.Some? then "transform: " + TranslateText(k.translateY.value) + "; " else "")
      + (if k.textShadow.Some? then "text-shadow: " + k.textShadow.value + "; " else "")
      + "}"
  }

  function KeyframeLines(ks: seq<Keyframe>): (r: seq<string>)
    ensures |r| == |ks|
    ensures forall i :: 0 <= i < |ks| ==> r[i] == KeyframeLine(ks[i])
  {
    if ks == [] then [] else [KeyframeLine(ks[0])] + KeyframeLines(ks[1..])
  }

  /** The second rule and the keyframes block, present exactly when an animation is chosen. */
  function AnimationLines(s: HeadlineSettings): (r: seq<string>)
    ensures r == [] <==> s.animationType == NoAnimation
    ensures s.animationType != NoAnimation ==>
      && |r| == 7 + |Keyframes(s.animationType)|
      && r[2] == "  animation: " + AnimationValue(s) + ";"
      && r[5] == "@keyframes " + AnimationToken(s.animationType) + " {"
      && r[6..|r| - 1] == KeyframeLines(Keyframes(s.animationType))
  {
    if s.animationType == NoAnimation then []
    else
      ["", ".headline {", "  animation: " + AnimationValue(s) + ";", "}", "",
       "@keyframes " + AnimationToken(s.animationType) + " {"]
        + KeyframeLines(Keyframes(s.animationType)) + ["}"]
  }

  /** The keyframes of fade-in and slide-up run between the preview's initial and final offsets. */
  lemma KeyframesMatchPreview(s: HeadlineSettings)
    requires s.animationType in {FadeIn, SlideUp}
    ensures
      var ks := Keyframes(s.animationType);
      var p := GetAnimationProps(s);
      && |ks| == 2
      && ks[0].opacity == Some(p.initial.opacity) && ks[1].opacity == Some(p.animate.opacity)
      && ks[0].translateY == YOf(p.initial.y) && ks[1].translateY == YOf(p.animate.y)
  {
  }

  // ---------------------------------------------------------------------
  // The CSS artifact
  // ---------------------------------------------------------------------

  /** The style properties both code artifacts write, in the order they write them. */
  datatype Prop =
    | FontSize | FontFamily | FontWeight | TextAlignProp | LetterSpacing | LineHeight | Padding | Margin
    | BackgroundProp | BackgroundClip | WebkitBackgroundClip | WebkitTextFillColor
    | ColorProp | BackgroundColor | TextShadowProp | WebkitTextStroke

  const DeclarationOrder := [FontSize, FontFamily, FontWeight, TextAlignProp, LetterSpacing, LineHeight,
                             Padding, Margin, BackgroundProp, BackgroundClip, WebkitBackgroundClip,
                             WebkitTextFillColor, ColorProp, BackgroundColor, TextShadowProp, WebkitTextStroke]

  function AsValue(o: Option<string>): Option<CssValue> {
    if o.Some? then Some(Str(o.value)) else None
  }

  /** The value a style record gives a property, if any. */
  function Get(st: Style, p: Prop): Option<CssValue> {
    match p
    case FontSize => AsValue(st.fontSize)
    case FontFamily => AsValue(st.fontFamily)
    case FontWeight => st.fontWeight
    case TextAlignProp => AsValue(st.textAlign)
    case LetterSpacing => AsValue(st.letterSpacing)
    case LineHeight => st.lineHeight
    case Padding => AsValue(st.padding)
    case Margin => AsValue(st.margin)
    case BackgroundProp => AsValue(st.background)
    case BackgroundClip => AsValue(st.backgroundClip)
    case WebkitBackgroundClip => AsValue(st.WebkitBackgroundClip)
    case WebkitTextFillColor => AsValue(st.WebkitTextFillColor)
    case ColorProp => AsValue(st.color)
    case BackgroundColor => AsValue(st.backgroundColor)
    case TextShadowProp => AsValue(st.textShadow)
    case WebkitTextStroke => AsValue(st.WebkitTextStroke)
  }

  /** The CSS property name. */
  function CssName(p: Prop): string {
    match p
    case FontSize => "font-size"
    case FontFamily => "font-family"
    case FontWeight => "font-weight"
    case TextAlignProp => "text-align"
    case LetterSpacing => "letter-spacing"
    case LineHeight => "line-height"
    case Padding => "padding"
    case Margin => "margin"
    case BackgroundProp => "background"
    case BackgroundClip => "background-clip"
    case WebkitBackgroundClip => "-webkit-background-clip"
    case WebkitTextFillColor => "-webkit-text-fill-color"
    case ColorProp => "color"
    case BackgroundColor => "background-color"
    case TextShadowProp => "text-shadow"
    case WebkitTextStroke => "-webkit-text-stroke"
  }

  function ValueText(v: CssValue): string {
    match v
    case Str(x) => x
    case Number(n) => NumToStr(n)
  }

  /** The declaration "  name: value;". */
  function DeclLine(name: string, v: string): string {
    "  " + name + ": " + v + ";"
  }

  /** The declaration, when the property is present. */
  function CssLine(name: string, v: Option<CssValue>): seq<string> {
    if v.Some? then [DeclLine(name, ValueText(v.value))] else []
  }

  /** The declarations of the properties ps that the record sets, in the order of ps. */
  function CssDeclarations(st: Style, ps: seq<Prop>): (r: seq<string>)
    ensures |r| <= |ps|
  {
    if ps == [] then [] else CssLine(CssName(ps[0]), Get(st, ps[0])) + CssDeclarations(st, ps[1..])
  }

  /** The lines of the stylesheet. */
  function CssDocument(s: HeadlineSettings): seq<string> {
    [".headline {"] + CssDeclarations(CssStyle(s), DeclarationOrder) + ["}"] + AnimationLines(s)
  }

  function RenderCss(s: HeadlineSettings): string {
    Join(CssDocument(s), "\n")
  }

  // ---------------------------------------------------------------------
  // Reading the CSS artifact back as lines
  // ---------------------------------------------------------------------

  predicate NoNewline(x: string) {
    '\n' !in x
  }

  predicate AllNoNewline(lines: seq<string>) {
    forall i :: 0 <= i < |lines| ==> NoNewline(lines[i])
  }

  /** The settings strings the stylesheet copies hold no line break. */
  predicate SingleLine(s: HeadlineSettings) {
    && NoNewline(s.fontFamily) && NoNewline(s.color) && NoNewline(s.backgroundColor)
    && NoNewline(s.shadowColor) && NoNewline(s.outlineColor)
    && AllNoNewline(s.gradientColors)
  }

  /** Every value the record sets renders without a line break. */
  predicate StyleSingleLine(st: Style) {
    forall p: Prop :: Get(st, p).Some? ==> NoNewline(ValueText(Get(st, p).value))
  }

  lemma AllNoNewlineAppend(a: seq<string>, b: seq<string>)
    requires AllNoNewline(a) && AllNoNewline(b)
    ensures AllNoNewline(a + b)
  {
  }

  lemma NoNewlineAppend(a: string, b: string)
    requires NoNewline(a) && NoNewline(b)
    ensures NoNewline(a + b)
  {
  }

  lemma NumNoNewline(x: Num)
    ensures NoNewline(NumToStr(x))
  {
    NumToStrChars(x);
  }

  lemma IntNoNewline(k: int)
    ensures NoNewline(IntToStr(k))
  {
    NumNoNewline(Num(k, 0));
    WholeNumToStr(k);
  }

  lemma {:induction false} JoinNoNewline(xs: seq<string>, sep: string)
    requires AllNoNewline(xs) && NoNewline(sep)
    ensures NoNewline(Join(xs, sep))
    decreases |xs|
  {
    if |xs| > 1 {
      JoinNoNewline(xs[1..], sep);
      assert Join(xs, sep) == xs[0] + sep + Join(xs[1..], sep);
    }
  }

  lemma CssNameNoNewline(p: Prop)
    ensures NoNewline(CssName(p))
  {
  }

  lemma CssLineNoNewline(name: string, v: Option<CssValue>)
    requires NoNewline(name)
    requires v.Some? ==> NoNewline(ValueText(v.value))
    ensures AllNoNewline(CssLine(name, v))
  {
    if v.Some? {
      assert CssLine(name, v) == ["  " + name + ": " + ValueText(v.value) + ";"];
      NoNewlineAppend("  ", name);
      NoNewlineAppend("  " + name, ": ");
      NoNewlineAppend("  " + name + ": ", ValueText(v.value));
      NoNewlineAppend("  " + name + ": " + ValueText(v.value), ";");
    }
  }

  lemma {:induction false} DeclarationsNoNewline(st: Style, ps: seq<Prop>)
    requires StyleSingleLine(st)
    ensures AllNoNewline(CssDeclarations(st, ps))
  {
    if ps != [] {
      CssNameNoNewline(ps[0]);
      CssLineNoNewline(CssName(ps[0]), Get(st, ps[0]));
      DeclarationsNoNewline(st, ps[1..]);
      AllNoNewlineAppend(CssLine(CssName(ps[0]), Get(st, ps[0])), CssDeclarations(st, ps[1..]));
    }
  }

  lemma PxNoNewline(n: Num)
    ensures NoNewline(Px(n))
  {
    NumNoNewline(n);
    NoNewlineAppend(NumToStr(n), "px");
  }

  lemma GradientNoNewline(s: HeadlineSettings)
    requires SingleLine(s)
    ensures NoNewline(GradientCss(s.gradientDirection, s.gradientColors))
  {
    JoinNoNewline(s.gradientColors, ", ");
    var d := DirectionCss(s.gradientDirection);
    assert NoNewline(d);
    var j := Join(s.gradientColors, ", ");
    NoNewlineAppend("linear-gradient(", d);
    NoNewlineAppend("linear-gradient(" + d, ", ");
    NoNewlineAppend("linear-gradient(" + d + ", ", j);
    NoNewlineAppend("linear-gradient(" + d + ", " + j, ")");
  }

  lemma ShadowNoNewline(s: HeadlineSettings)
    requires SingleLine(s)
    ensures NoNewline(ShadowCss(s))
  {
    var x, y, b := NumToStr(s.shadowOffsetX), NumToStr(s.shadowOffsetY), NumToStr(s.shadowBlur);
    NumNoNewline(s.shadowOffsetX);
    NumNoNewline(s.shadowOffsetY);
    NumNoNewline(s.shadowBlur);
    NoNewlineAppend(x, "px ");
    NoNewlineAppend(x + "px ", y);
    NoNewlineAppend(x + "px " + y, "px ");
    NoNewlineAppend(x + "px " + y + "px ", b);
    NoNewlineAppend(x + "px " + y + "px " + b, "px ");
    NoNewlineAppend(x + "px " + y + "px " + b + "px ", s.shadowColor);
  }

  lemma CssStyleSingleLine(s: HeadlineSettings)
    requires SingleLine(s)
    ensures StyleSingleLine(CssStyle(s))
  {
    var st := CssStyle(s);
    forall p: Prop | Get(st, p).Some?
      ensures NoNewline(ValueText(Get(st, p).value))
    {
      match p
      case FontSize => PxNoNewline(s.fontSize);
      case FontFamily =>
        NoNewlineAppend("'", s.fontFamily);
        NoNewlineAppend("'" + s.fontFamily, "', sans-serif");
      case FontWeight => NumNoNewline(s.fontWeight);
      case TextAlignProp =>
      case LetterSpacing => PxNoNewline(s.letterSpacing);
      case LineHeight => NumNoNewline(s.lineHeight);
      case Padding => PxNoNewline(s.padding);
      case Margin => PxNoNewline(s.margin);
      case BackgroundProp => GradientNoNewline(s);
      case BackgroundClip =>
      case WebkitBackgroundClip =>
      case WebkitTextFillColor =>
      case ColorProp =>
      case BackgroundColor =>
      case TextShadowProp => ShadowNoNewline(s);
      case WebkitTextStroke => NoNewlineAppend("2px ", s.outlineColor);
    }
  }

  lemma KeyframeNoNewline(k: Keyframe)
    requires NoNewline(k.at)
    requires k.textShadow.Some? ==> NoNewline(k.textShadow.value)
    ensures NoNewline(KeyframeLine(k))
  {
    var o := if k.opacity.Some? then "opacity: " + IntToStr(k.opacity.value) + "; " else "";
    var t := if k.translateY.Some? then "transform: " + TranslateText(k.translateY.value) + "; " else "";
    var h := if k.textShadow.Some? then "text-shadow: " + k.textShadow.value + "; " else "";
    if k.opacity.Some? {
      IntNoNewline(k.opacity.value);
      NoNewlineAppend("opacity: ", IntToStr(k.opacity.value));
      NoNewlineAppend("opacity: " + IntToStr(k.opacity.value), "; ");
    }
    if k.translateY.Some? {
      var y := k.translateY.value;
      if y != 0 {
        IntNoNewline(y);
        NoNewlineAppend("translateY(", IntToStr(y));
        NoNewlineAppend("translateY(" + IntToStr(y), "px)");
      }
      NoNewlineAppend("transform: ", TranslateText(y));
      NoNewlineAppend("transform: " + TranslateText(y), "; ");
    }
    if k.textShadow.Some? {
      NoNewlineAppend("text-shadow: ", k.textShadow.value);
      NoNewlineAppend("text-shadow: " + k.textShadow.value, "; ");
    }
    NoNewlineAppend("    ", k.at);
    NoNewlineAppend("    " + k.at, " { ");
    NoNewlineAppend("    " + k.at + " { ", o);
    NoNewlineAppend("    " + k.at + " { " + o, t);
    NoNewlineAppend("    " + k.at + " { " + o + t, h);
    NoNewlineAppend("    " + k.at + " { " + o + t + h, "}");
  }

  /** A keyframe whose step name and shadow hold no line break. */
  predicate KeyframeSingleLine(k: Keyframe) {
    NoNewline(k.at) && (k.textShadow.Some? ==> NoNewline(k.textShadow.value))
  }

  lemma {:induction false} KeyframeLinesNoNewline(ks: seq<Keyframe>)
    requires forall i :: 0 <= i < |ks| ==> KeyframeSingleLine(ks[i])
    ensures AllNoNewline(KeyframeLines(ks))
  {
    if ks != [] {
      KeyframeNoNewline(ks[0]);
      KeyframeLinesNoNewline(ks[1..]);
      AllNoNewlineAppend([KeyframeLine(ks[0])], KeyframeLines(ks[1..]));
    }
  }

  lemma KeyframesNoNewline(t: AnimationType)
    ensures AllNoNewline(KeyframeLines(Keyframes(t)))
  {
    var ks := Keyframes(t);
    match t
    case FadeIn =>
      assert KeyframeSingleLine(ks[0]) && KeyframeSingleLine(ks[1]);
      KeyframeLinesNoNewline(ks);
    case SlideUp =>
      assert KeyframeSingleLine(ks[0]) && KeyframeSingleLine(ks[1]);
      KeyframeLinesNoNewline(ks);
    case Glow =>
      assert KeyframeSingleLine(ks[0]) && KeyframeSingleLine(ks[1]);
      KeyframeLinesNoNewline(ks);
    case _ =>
  }

  lemma AnimationValueNoNewline(s: HeadlineSettings)
    ensures NoNewline(AnimationValue(s))
  {
    var tok := AnimationToken(s.animationType);
    var d, e := NumToStr(s.animationDuration), NumToStr(s.animationDelay);
    NumNoNewline(s.animationDuration);
    NumNoNewline(s.animationDelay);
    NoNewlineAppend(tok, " ");
    NoNewlineAppend(tok + " ", d);
    NoNewlineAppend(tok + " " + d, "s ease-in-out ");
    NoNewlineAppend(tok + " " + d + "s ease-in-out ", e);
    NoNewlineAppend(tok + " " + d + "s ease-in-out " + e, "s");
  }

  lemma AnimationNoNewline(s: HeadlineSettings)
    ensures AllNoNewline(AnimationLines(s))
  {
    if s.animationType != NoAnimation {
      var tok := AnimationToken(s.animationType);
      KeyframesNoNewline(s.animationType);
      AnimationValueNoNewline(s);
      NoNewlineAppend("  animation: ", AnimationValue(s));
      NoNewlineAppend("  animation: " + AnimationValue(s), ";");
      NoNewlineAppend("@keyframes ", tok);
      NoNewlineAppend("@keyframes " + tok, " {");
      var head := ["", ".headline {", "  animation: " + AnimationValue(s) + ";", "}", "", "@keyframes " + tok + " {"];
      var ks := KeyframeLines(Keyframes(s.animationType));
      AllNoNewlineAppend(head, ks);
      AllNoNewlineAppend(head + ks, ["}"]);
    }
  }

  /** Splitting the stylesheet at its line breaks gives back exactly its lines, in order. */
  lemma CssText(s: HeadlineSettings)
    ensures SingleLine(s) ==> Split(RenderCss(s), '\n') == CssDocument(s)
  {
    if SingleLine(s) {
      CssStyleSingleLine(s);
      DeclarationsNoNewline(CssStyle(s), DeclarationOrder);
      AnimationNoNewline(s);
      var d := CssDeclarations(CssStyle(s), DeclarationOrder);
      AllNoNewlineAppend([".headline {"], d);
      AllNoNewlineAppend([".headline {"] + d, ["}"]);
      AllNoNewlineAppend([".headline {"] + d + ["}"], AnimationLines(s));
      SplitJoin(CssDocument(s), '\n');
    }
  }

  // ---------------------------------------------------------------------
  // Which declarations the headline rule holds
  // ---------------------------------------------------------------------

  lemma CssNameNoColon(p: Prop)
    ensures ':' !in CssName(p)
  {
    if p in {FontSize, FontFamily, FontWeight, TextAlignProp, LetterSpacing, LineHeight, Padding, Margin} {
      TypographyNameNoColon(p);
    } else {
      PaintNameNoColon(p);
    }
  }

  lemma TypographyNameNoColon(p: Prop)
    requires p in {FontSize, FontFamily, FontWeight, TextAlignProp, LetterSpacing, LineHeight, Padding, Margin}
    ensures ':' !in CssName(p)
  {
  }

  lemma PaintNameNoColon(p: Prop)
    requires p !in {FontSize, FontFamily, FontWeight, TextAlignProp, LetterSpacing, LineHeight, Padding, Margin}
    ensures ':' !in CssName(p)
  {
  }

  lemma CssNameInjective(p: Prop, q: Prop)
    ensures CssName(p) == CssName(q) ==> p == q
  {
  }

  /** A declaration line determines its name and its value, for names without a colon. */
  lemma DeclLineInjective(n1: string, v1: string, n2: string, v2: string)
    requires ':' !in n1 && ':' !in n2
    ensures DeclLine(n1, v1) == DeclLine(n2, v2) ==> n1 == n2 && v1 == v2
  {
    var l1, l2 := DeclLine(n1, v1), DeclLine(n2, v2);
    if l1 == l2 {
      assert l1[2 + |n1|] == ':' && l2[2 + |n2|] == ':';
      assert n1 == l1[2..2 + |n1|] && n2 == l2[2..2 + |n2|];
      assert v1 == l1[4 + |n1|..|l1| - 1] && v2 == l2[4 + |n2|..|l2| - 1];
    }
  }

  /** The declarations of ps hold the line for p with value text v exactly when p in ps is set to v. */
  lemma {:induction false} Declared(st: Style, ps: seq<Prop>, p: Prop, v: string)
    ensures DeclLine(CssName(p), v) in CssDeclarations(st, ps)
            <==> p in ps && Get(st, p).Some? && ValueText(Get(st, p).value) == v
  {
    if ps != [] {
      var q := ps[0];
      Declared(st, ps[1..], p, v);
      CssNameNoColon(p);
      CssNameNoColon(q);
      if Get(st, q).Some? {
        DeclLineInjective(CssName(p), v, CssName(q), ValueText(Get(st, q).value));
      }
      CssNameInjective(p, q);
      assert p in ps <==> p == q || p in ps[1..];
    }
  }

  /** Every property has its place in the declaration order. */
  lemma InDeclarationOrder(p: Prop)
    ensures p in DeclarationOrder
  {
  }

  /** The headline rule declares the plain colour exactly when the gradient is off. */
  lemma RuleDeclaresColor(s: HeadlineSettings)
    ensures DeclLine("color", s.color) in CssDeclarations(CssStyle(s), DeclarationOrder) <==> !s.gradientEnabled
  {
    DeclaredIn(s, ColorProp, s.color);
  }

  /** The headline rule declares the gradient fill exactly when the gradient is on. */
  lemma RuleDeclaresGradient(s: HeadlineSettings)
    ensures (DeclLine("background", GradientCss(s.gradientDirection, s.gradientColors))
               in CssDeclarations(CssStyle(s), DeclarationOrder)) <==> s.gradientEnabled
  {
    DeclaredIn(s, BackgroundProp, GradientCss(s.gradientDirection, s.gradientColors));
  }

  /** The headline rule makes the glyphs transparent exactly when the gradient is on. */
  lemma RuleDeclaresTransparentFill(s: HeadlineSettings)
    ensures (DeclLine("-webkit-text-fill-color", "transparent")
               in CssDeclarations(CssStyle(s), DeclarationOrder)) <==> s.gradientEnabled
  {
    DeclaredIn(s, WebkitTextFillColor, "transparent");
  }

  /** The headline rule declares the background colour unless it is "transparent". */
  lemma RuleDeclaresBackgroundColor(s: HeadlineSettings)
    ensures DeclLine("background-color", s.backgroundColor) in CssDeclarations(CssStyle(s), DeclarationOrder)
            <==> ExportHasBackground(s)
  {
    DeclaredIn(s, BackgroundColor, s.backgroundColor);
  }

  /** The headline rule declares the shadow exactly when it is switched on. */
  lemma RuleDeclaresShadow(s: HeadlineSettings)
    ensures DeclLine("text-shadow", ShadowCss(s)) in CssDeclarations(CssStyle(s), DeclarationOrder) <==> s.textShadow
  {
    DeclaredIn(s, TextShadowProp, ShadowCss(s));
  }

  /** The headline rule declares the outline exactly when it is switched on. */
  lemma RuleDeclaresOutline(s: HeadlineSettings)
    ensures DeclLine("-webkit-text-stroke", StrokeCss(s)) in CssDeclarations(CssStyle(s), DeclarationOrder)
            <==> s.textOutline
  {
    DeclaredIn(s, WebkitTextStroke, StrokeCss(s));
  }

  /** The headline rule holds the line for p with value v exactly when the exported style sets p to v. */
  lemma DeclaredIn(s: HeadlineSettings, p: Prop, v: string)
    ensures DeclLine(CssName(p), v) in CssDeclarations(CssStyle(s), DeclarationOrder)
            <==> Get(CssStyle(s), p).Some? && ValueText(Get(CssStyle(s), p).value) == v
  {
    InDeclarationOrder(p);
    Declared(CssStyle(s), DeclarationOrder, p, v);
  }

  /** The headline rule's lines follow its opening line in the stylesheet. */
  lemma RuleBodyInDocument(s: HeadlineSettings)
    ensures var d := CssDeclarations(CssStyle(s), DeclarationOrder);
      CssDocument(s)[0] == ".headline {" && CssDocument(s)[1..1 + |d|] == d && CssDocument(s)[1 + |d|] == "}"
  {
  }

  /** The declarations of ps followed by qs are those of ps, then those of qs. */
  lemma {:induction false} CssDeclarationsAppend(st: Style, ps: seq<Prop>, qs: seq<Prop>)
    ensures CssDeclarations(st, ps + qs) == CssDeclarations(st, ps) + CssDeclarations(st, qs)
    decreases |ps|
  {
    if ps == [] {
      assert ps + qs == qs;
    } else {
      assert (ps + qs)[0] == ps[0];
      assert (ps + qs)[1..] == ps[1..] + qs;
      CssDeclarationsAppend(st, ps[1..], qs);
    }
  }

  /** One property contributes its one declaration when the record sets it, and nothing otherwise. */
  lemma CssDeclarationsOne(st: Style, p: Prop)
    ensures CssDeclarations(st, [p])
            == if Get(st, p).Some? then [DeclLine(CssName(p), ValueText(Get(st, p).value))] else []
  {
    assert [p][1..] == [];
  }

  /** No property is declared with two different values. */
  lemma DeclaredOnce(st: Style, ps: seq<Prop>, p: Prop, v1: string, v2: string)
    requires DeclLine(CssName(p), v1) in CssDeclarations(st, ps)
    requires DeclLine(CssName(p), v2) in CssDeclarations(st, ps)
    ensures v1 == v2
  {
    Declared(st, ps, p, v1);
    Declared(st, ps, p, v2);
  }

  /** Of two set properties, the one earlier in ps is declared on an earlier line. */
  lemma DeclarationsInOrder(st: Style, ps: seq<Prop>, i: nat, j: nat)
    requires i < j < |ps|
    requires Get(st, ps[i]).Some? && Get(st, ps[j]).Some?
    ensures exists a: nat, b: nat :: a < b < |CssDeclarations(st, ps)|
              && CssDeclarations(st, ps)[a] == DeclLine(CssName(ps[i]), ValueText(Get(st, ps[i]).value))
              && CssDeclarations(st, ps)[b] == DeclLine(CssName(ps[j]), ValueText(Get(st, ps[j]).value))
  {
    var front, back := ps[..j], ps[j..];
    assert ps == front + back;
    CssDeclarationsAppend(st, front, back);
    assert front[i] == ps[i] && back[0] == ps[j];
    DeclaredWhenSet(st, front, i);
    DeclaredWhenSet(st, back, 0);
    LinesInOrder(CssDeclarations(st, front), CssDeclarations(st, back),
                 DeclLine(CssName(ps[i]), ValueText(Get(st, ps[i]).value)),
                 DeclLine(CssName(ps[j]), ValueText(Get(st, ps[j]).value)));
  }

  lemma DeclaredWhenSet(st: Style, ps: seq<Prop>, k: nat)
    requires k < |ps| && Get(st, ps[k]).Some?
    ensures DeclLine(CssName(ps[k]), ValueText(Get(st, ps[k]).value)) in CssDeclarations(st, ps)
  {
    Declared(st, ps, ps[k], ValueText(Get(st, ps[k]).value));
  }

  lemma LinesInOrder(f: seq<string>, g: seq<string>, l1: string, l2: string)
    requires l1 in f && l2 in g
    ensures exists a: nat, b: nat :: a < b < |f + g| && (f + g)[a] == l1 && (f + g)[b] == l2
  {
    var a :| 0 <= a < |f| && f[a] == l1;
    var b :| 0 <= b < |g| && g[b] == l2;
    assert (f + g)[a] == l1 && (f + g)[|f| + b] == l2;
  }

  // ---------------------------------------------------------------------
  // The HTML artifact
  // ---------------------------------------------------------------------

  const HtmlOpen := "<h1 class=\"headline\">"
  const HtmlMiddle := "</h1>\n\n<style>\n"
  const HtmlClose := "\n</style>"

  /** The heading with the text copied verbatim, then the stylesheet verbatim in a style element. */
  function HtmlCode(text: string, css: string): string {
    HtmlOpen + text + HtmlMiddle + css + HtmlClose
  }

  /** The text sits right after the opening tag and the stylesheet right after the style tag. */
  predicate HtmlLayout(r: string, text: string, css: string) {
    var k := |HtmlOpen| + |text| + |HtmlMiddle|;
    && |r| == k + |css| + |HtmlClose|
    && r[..|HtmlOpen|] == HtmlOpen
    && r[|HtmlOpen|..|HtmlOpen| + |text|] == text
    && r[k..k + |css|] == css
    && r[k + |css|..] == HtmlClose
  }

  /** The text and the stylesheet can be read back from fixed positions: nothing is escaped. */
  lemma HtmlEmbeds(text: string, css: string)
    ensures HtmlLayout(HtmlCode(text, css), text, css)
  {
    var r := HtmlCode(text, css);
    var k := |HtmlOpen| + |text| + |HtmlMiddle|;
    assert r == ((((HtmlOpen + text) + HtmlMiddle) + css) + HtmlClose);
    assert r[..k + |css|] == HtmlOpen + text + HtmlMiddle + css;
    assert r[..k] == HtmlOpen + text + HtmlMiddle;
    assert r[..|HtmlOpen| + |text|] == HtmlOpen + text;
  }

  // ---------------------------------------------------------------------
  // The React artifact
  // ---------------------------------------------------------------------

  /** A style value in JavaScript source: strings quoted, numbers bare. */
  function ReactValueText(v: CssValue): string {
    match v
    case Str(x) => "'" + x + "'"
    case Number(n) => NumToStr(n)
  }

  /** The key of a property in a React style object. */
  function ReactKey(p: Prop): string {
    match p
    case FontSize => "fontSize"
    case FontFamily => "fontFamily"
    case FontWeight => "fontWeight"
    case TextAlignProp => "textAlign"
    case LetterSpacing => "letterSpacing"
    case LineHeight => "lineHeight"
    case Padding => "padding"
    case Margin => "margin"
    case BackgroundProp => "background"
    case BackgroundClip => "backgroundClip"
    case WebkitBackgroundClip => "WebkitBackgroundClip"
    case WebkitTextFillColor => "WebkitTextFillColor"
    case ColorProp => "color"
    case BackgroundColor => "backgroundColor"
    case TextShadowProp => "textShadow"
    case WebkitTextStroke => "WebkitTextStroke"
  }

  /** One entry of the `style` object literal. */
  function ReactEntry(key: string, v: string): string {
    "    " + key + ": " + v + ","
  }

  /** The entry, when the property is present. */
  function ReactLine(key: string, v: Option<CssValue>): seq<string> {
    if v.Some? then [ReactEntry(key, ReactValueText(v.value))] else []
  }

  /** The entries of the `style` object for the properties ps that the record sets, in the order of ps. */
  function ReactDeclarations(st: Style, ps: seq<Prop>): (r: seq<string>)
    ensures |r| <= |ps|
  {
    if ps == [] then [] else ReactLine(ReactKey(ps[0]), Get(st, ps[0])) + ReactDeclarations(st, ps[1..])
  }

  /** The `y` offset of the exported `initial` prop: slide-up 50, fade-in 20, otherwise none. */
  function ReactInitialY(t: AnimationType): (r: Option<int>)
    ensures t == SlideUp ==> r == Some(50)
    ensures t == FadeIn ==> r == Some(20)
    ensures r.Some? <==> t in {SlideUp, FadeIn}
  {
    if t == SlideUp then Some(50) else if t == FadeIn then Some(20) else None
  }

  /** The `y` offset of the exported `animate` prop: 0 for slide-up and fade-in, otherwise none. */
  function ReactAnimateY(t: AnimationType): (r: Option<int>)
    ensures r.Some? <==> t in {SlideUp, FadeIn}
    ensures r.Some? ==> r.value == 0
  {
    if t == SlideUp then Some(0) else if t == FadeIn then Some(0) else None
  }

  /** The single offset a preview motion target has, if any. */
  function YOf(m: YMotion): Option<int> {
    match m
    case YTo(y) => Some(y)
    case _ => None
  }

  /**
   * The exported motion props agree with the preview's for every animation
   * type but bounce, whose vertical keyframes and endless repeat the export
   * does not carry.
   */
  lemma ReactMotionMatchesPreview(s: HeadlineSettings)
    ensures ReactInitialY(s.animationType) == YOf(GetAnimationProps(s).initial.y)
    ensures s.animationType != Bounce ==> ReactAnimateY(s.animationType) == YOf(GetAnimationProps(s).animate.y)
    ensures s.animationType == Bounce ==>
      GetAnimationProps(s).animate.y.YKeyframes? && ReactAnimateY(s.animationType).None?
  {
  }

  function OffsetText(y: Option<int>): string {
    if y.Some? then ", y: " + IntToStr(y.value) else ""
  }

  /** The component source up to the opening of the style object. */
  const ReactHead := ["import React from 'react';", "import { motion } from 'framer-motion';", "",
                      "const Headline = () => {", "  const style = {"]

  /** The lines of the component source. */
  function ReactDocument(s: HeadlineSettings): seq<string> {
    ReactHead + ReactDeclarations(ReactStyle(s), DeclarationOrder) + ReactTail(s)
  }

  function RenderReact(s: HeadlineSettings): string {
    Join(ReactDocument(s), "\n")
  }

  // ---------------------------------------------------------------------
  // Which entries the React style object holds
  // ---------------------------------------------------------------------

  lemma ReactKeyNoColon(p: Prop)
    ensures ':' !in ReactKey(p)
  {
    if p in {FontSize, FontFamily, FontWeight, TextAlignProp, LetterSpacing, LineHeight, Padding, Margin} {
      TypographyKeyNoColon(p);
    } else {
      PaintKeyNoColon(p);
    }
  }

  lemma TypographyKeyNoColon(p: Prop)
    requires p in {FontSize, FontFamily, FontWeight, TextAlignProp, LetterSpacing, LineHeight, Padding, Margin}
    ensures ':' !in ReactKey(p)
  {
  }

  lemma PaintKeyNoColon(p: Prop)
    requires p !in {FontSize, FontFamily, FontWeight, TextAlignProp, LetterSpacing, LineHeight, Padding, Margin}
    ensures ':' !in ReactKey(p)
  {
  }

  lemma ReactKeyInjective(p: Prop, q: Prop)
    ensures ReactKey(p) == ReactKey(q) ==> p == q
  {
  }

  /** An entry determines its key and its value, for keys without a colon. */
  lemma ReactEntryInjective(k1: string, v1: string, k2: string, v2: string)
    requires ':' !in k1 && ':' !in k2
    ensures ReactEntry(k1, v1) == ReactEntry(k2, v2) ==> k1 == k2 && v1 == v2
  {
    var l1, l2 := ReactEntry(k1, v1), ReactEntry(k2, v2);
    if l1 == l2 {
      assert l1[4 + |k1|] == ':' && l2[4 + |k2|] == ':';
      assert k1 == l1[4..4 + |k1|] && k2 == l2[4..4 + |k2|];
      assert v1 == l1[6 + |k1|..|l1| - 1] && v2 == l2[6 + |k2|..|l2| - 1];
    }
  }

  /** The entries of ps hold the one for p with value text v exactly when p in ps is set to v. */
  lemma {:induction false} ReactDeclared(st: Style, ps: seq<Prop>, p: Prop, v: string)
    ensures ReactEntry(ReactKey(p), v) in ReactDeclarations(st, ps)
            <==> p in ps && Get(st, p).Some? && ReactValueText(Get(st, p).value) == v
  {
    if ps != [] {
      var q := ps[0];
      ReactDeclared(st, ps[1..], p, v);
      ReactKeyNoColon(p);
      ReactKeyNoColon(q);
      if Get(st, q).Some? {
        ReactEntryInjective(ReactKey(p), v, ReactKey(q), ReactValueText(Get(st, q).value));
      }
      ReactKeyInjective(p, q);
      assert p in ps <==> p == q || p in ps[1..];
    }
  }

  /**
   * The exported component's style object holds the entry for p with value
   * text v exactly when the React style sets p to v; apart from the font
   * family that is the value the stylesheet declares.
   */
  lemma ReactDeclaredIn(s: HeadlineSettings, p: Prop, v: string)
    ensures ReactEntry(ReactKey(p), v) in ReactDeclarations(ReactStyle(s), DeclarationOrder)
            <==> Get(ReactStyle(s), p).Some? && ReactValueText(Get(ReactStyle(s), p).value) == v
    ensures p != FontFamily ==> Get(ReactStyle(s), p) == Get(CssStyle(s), p)
  {
    InDeclarationOrder(p);
    ReactDeclared(ReactStyle(s), DeclarationOrder, p, v);
    ReactMatchesCss(s);
  }

  /** The component sets the plain colour exactly when the gradient is off. */
  lemma ReactDeclaresColor(s: HeadlineSettings)
    ensures ReactEntry("color", "'" + s.color + "'") in ReactDeclarations(ReactStyle(s), DeclarationOrder)
            <==> !s.gradientEnabled
  {
    ReactDeclaredIn(s, ColorProp, "'" + s.color + "'");
  }

  /** The component sets the gradient fill exactly when the gradient is on. */
  lemma ReactDeclaresGradient(s: HeadlineSettings)
    ensures (ReactEntry("background", "'" + GradientCss(s.gradientDirection, s.gradientColors) + "'")
               in ReactDeclarations(ReactStyle(s), DeclarationOrder)) <==> s.gradientEnabled
  {
    ReactDeclaredIn(s, BackgroundProp, "'" + GradientCss(s.gradientDirection, s.gradientColors) + "'");
  }

  /** The component sets the background colour unless it is "transparent". */
  lemma ReactDeclaresBackgroundColor(s: HeadlineSettings)
    ensures (ReactEntry("backgroundColor", "'" + s.backgroundColor + "'")
               in ReactDeclarations(ReactStyle(s), DeclarationOrder)) <==> ExportHasBackground(s)
  {
    ReactDeclaredIn(s, BackgroundColor, "'" + s.backgroundColor + "'");
  }

  /** The component sets the shadow exactly when it is switched on. */
  lemma ReactDeclaresShadow(s: HeadlineSettings)
    ensures (ReactEntry("textShadow", "'" + ShadowCss(s) + "'")
               in ReactDeclarations(ReactStyle(s), DeclarationOrder)) <==> s.textShadow
  {
    ReactDeclaredIn(s, TextShadowProp, "'" + ShadowCss(s) + "'");
  }

  /** The component sets the outline exactly when it is switched on. */
  lemma ReactDeclaresOutline(s: HeadlineSettings)
    ensures (ReactEntry("WebkitTextStroke", "'" + StrokeCss(s) + "'")
               in ReactDeclarations(ReactStyle(s), DeclarationOrder)) <==> s.textOutline
  {
    ReactDeclaredIn(s, WebkitTextStroke, "'" + StrokeCss(s) + "'");
  }

  // ---------------------------------------------------------------------
  // Reading the React artifact back as lines
  // ---------------------------------------------------------------------

  /** The settings strings the component source copies hold no line break. */
  predicate ReactSingleLine(s: HeadlineSettings) {
    SingleLine(s) && NoNewline(s.text)
  }

  lemma QuotedNoNewline(x: string)
    requires NoNewline(x)
    ensures NoNewline("'" + x + "'")
  {
    NoNewlineAppend("'", x);
    NoNewlineAppend("'" + x, "'");
  }

  lemma ReactValueNoNewline(v: CssValue)
    requires NoNewline(ValueText(v))
    ensures NoNewline(ReactValueText(v))
  {
    if v.Str? {
      QuotedNoNewline(v.s);
    }
  }

  lemma ReactStyleSingleLine(s: HeadlineSettings)
    requires SingleLine(s)
    ensures StyleSingleLine(ReactStyle(s))
  {
    var st := ReactStyle(s);
    CssStyleSingleLine(s);
    ReactMatchesCss(s);
    forall p: Prop | Get(st, p).Some?
      ensures NoNewline(ValueText(Get(st, p).value))
    {
      if p == FontFamily {
        NoNewlineAppend(s.fontFamily, ", sans-serif");
      } else {
        GetOtherThanFontFamily(CssStyle(s), Some(s.fontFamily + ", sans-serif"), p);
      }
    }
  }

  /** Replacing the font family leaves every other property as it was. */
  lemma GetOtherThanFontFamily(st: Style, v: Option<string>, p: Prop)
    requires p != FontFamily
    ensures Get(st.(fontFamily := v), p) == Get(st, p)
  {
  }

  lemma ReactLineNoNewline(key: string, v: Option<CssValue>)
    requires NoNewline(key)
    requires v.Some? ==> NoNewline(ValueText(v.value))
    ensures AllNoNewline(ReactLine(key, v))
  {
    if v.Some? {
      var x := ReactValueText(v.value);
      ReactValueNoNewline(v.value);
      NoNewlineAppend("    ", key);
      NoNewlineAppend("    " + key, ": ");
      NoNewlineAppend("    " + key + ": ", x);
      NoNewlineAppend("    " + key + ": " + x, ",");
    }
  }

  lemma {:induction false} ReactDeclarationsNoNewline(st: Style, ps: seq<Prop>)
    requires StyleSingleLine(st)
    ensures AllNoNewline(ReactDeclarations(st, ps))
  {
    if ps != [] {
      ReactLineNoNewline(ReactKey(ps[0]), Get(st, ps[0]));
      ReactDeclarationsNoNewline(st, ps[1..]);
      AllNoNewlineAppend(ReactLine(ReactKey(ps[0]), Get(st, ps[0])), ReactDeclarations(st, ps[1..]));
    }
  }

  lemma OffsetNoNewline(y: Option<int>)
    ensures NoNewline(OffsetText(y))
  {
    if y.Some? {
      IntNoNewline(y.value);
      NoNewlineAppend(", y: ", IntToStr(y.value));
    }
  }

  /** The lines that close the style object and open the motion element. */
  const ReactClose := ["  };", "", "  return (", "    <motion.h1", "      style={style}"]

  /** The lines after the headline text. */
  const ReactEnd := ["    </motion.h1>", "  );", "};", "", "export default Headline;"]

  /** The `initial`, `animate` and `transition` props of the motion element. */
  function ReactMotion(s: HeadlineSettings): seq<string> {
    ["      initial={{ opacity: 0" + OffsetText(ReactInitialY(s.animationType)) + " }}",
     "      animate={{ opacity: 1" + OffsetText(ReactAnimateY(s.animationType)) + " }}",
     "      transition={{ duration: " + NumToStr(s.animationDuration) + ", delay: "
       + NumToStr(s.animationDelay) + " }}"]
  }

  /** The component source from the closing brace of the style object on. */
  function ReactTail(s: HeadlineSettings): seq<string> {
    ReactClose + ReactMotion(s) + ["    >", "      " + s.text] + ReactEnd
  }

  lemma ReactFixedNoNewline()
    ensures AllNoNewline(ReactHead) && AllNoNewline(ReactClose) && AllNoNewline(ReactEnd)
  {
    ReactHeadNoNewline();
    ReactCloseNoNewline();
    ReactEndNoNewline();
  }

  lemma ReactHeadNoNewline()
    ensures AllNoNewline(ReactHead)
  {
    ReactImportsNoNewline();
    assert NoNewline(ReactHead[2]) && NoNewline(ReactHead[3]) && NoNewline(ReactHead[4]);
  }

  lemma ReactImportsNoNewline()
    ensures NoNewline(ReactHead[0]) && NoNewline(ReactHead[1])
  {
  }

  lemma ReactCloseNoNewline()
    ensures AllNoNewline(ReactClose)
  {
    assert NoNewline(ReactClose[0]) && NoNewline(ReactClose[1]) && NoNewline(ReactClose[2]);
    assert NoNewline(ReactClose[3]) && NoNewline(ReactClose[4]);
  }

  lemma ReactEndNoNewline()
    ensures AllNoNewline(ReactEnd)
  {
    assert NoNewline(ReactEnd[0]) && NoNewline(ReactEnd[1]) && NoNewline(ReactEnd[2]);
    assert NoNewline(ReactEnd[3]) && NoNewline(ReactEnd[4]);
  }

  lemma ReactMotionNoNewline(s: HeadlineSettings)
    ensures AllNoNewline(ReactMotion(s))
  {
    var m := ReactMotion(s);
    OffsetLineNoNewline("      initial={{ opacity: 0", ReactInitialY(s.animationType));
    OffsetLineNoNewline("      animate={{ opacity: 1", ReactAnimateY(s.animationType));
    TransitionNoNewline(s);
    assert NoNewline(m[0]) && NoNewline(m[1]) && NoNewline(m[2]);
  }

  lemma OffsetLineNoNewline(head: string, y: Option<int>)
    requires NoNewline(head)
    ensures NoNewline(head + OffsetText(y) + " }}")
  {
    OffsetNoNewline(y);
    NoNewlineAppend(head, OffsetText(y));
    NoNewlineAppend(head + OffsetText(y), " }}");
  }

  lemma TransitionNoNewline(s: HeadlineSettings)
    ensures NoNewline("      transition={{ duration: " + NumToStr(s.animationDuration) + ", delay: "
                      + NumToStr(s.animationDelay) + " }}")
  {
    NumNoNewline(s.animationDuration);
    NumNoNewline(s.animationDelay);
    FiveNoNewline("      transition={{ duration: ", NumToStr(s.animationDuration), ", delay: ",
                  NumToStr(s.animationDelay), " }}");
  }

  lemma FiveNoNewline(a: string, b: string, c: string, d: string, e: string)
    requires NoNewline(a) && NoNewline(b) && NoNewline(c) && NoNewline(d) && NoNewline(e)
    ensures NoNewline(a + b + c + d + e)
  {
    NoNewlineAppend(a, b);
    NoNewlineAppend(a + b, c);
    NoNewlineAppend(a + b + c, d);
    NoNewlineAppend(a + b + c + d, e);
  }

  lemma ReactTailNoNewline(s: HeadlineSettings)
    requires NoNewline(s.text)
    ensures AllNoNewline(ReactTail(s))
  {
    ReactFixedNoNewline();
    ReactMotionNoNewline(s);
    NoNewlineAppend("      ", s.text);
    AllNoNewlineAppend(ReactClose, ReactMotion(s));
    AllNoNewlineAppend(ReactClose + ReactMotion(s), ["    >", "      " + s.text]);
    AllNoNewlineAppend(ReactClose + ReactMotion(s) + ["    >", "      " + s.text], ReactEnd);
  }

  /**
   * When the copied settings strings hold no line break, splitting the
   * component source at line breaks gives back exactly its lines.
   */
  lemma ReactText(s: HeadlineSettings)
    ensures ReactSingleLine(s) ==> Split(RenderReact(s), '\n') == ReactDocument(s)
  {
    if ReactSingleLine(s) {
      ReactStyleSingleLine(s);
      ReactDeclarationsNoNewline(ReactStyle(s), DeclarationOrder);
      ReactTailNoNewline(s);
      ReactFixedNoNewline();
      var d := ReactDeclarations(ReactStyle(s), DeclarationOrder);
      AllNoNewlineAppend(ReactHead, d);
      AllNoNewlineAppend(ReactHead + d, ReactTail(s));
      SplitJoin(ReactDocument(s), '\n');
    }
  }

  /**
   * The component's lines: the style entries follow the opening of the
   * style object, and the motion props and the text sit at fixed places
   * after it.
   */
  lemma ReactLayout(s: HeadlineSettings)
    ensures var d := ReactDeclarations(ReactStyle(s), DeclarationOrder);
      var r := ReactDocument(s);
      && |r| == |ReactHead| + |d| + 15
      && r[|ReactHead| - 1] == "  const style = {"
      && r[|ReactHead|..|ReactHead| + |d|] == d
      && r[|ReactHead| + |d|] == "  };"
      && r[|ReactHead| + |d| + 5] == "      initial={{ opacity: 0" + OffsetText(ReactInitialY(s.animationType)) + " }}"
      && r[|ReactHead| + |d| + 6] == "      animate={{ opacity: 1" + OffsetText(ReactAnimateY(s.animationType)) + " }}"
      && r[|ReactHead| + |d| + 9] == "      " + s.text
  {
  }

  // ---------------------------------------------------------------------
  // generateExports
  // ---------------------------------------------------------------------

  /**
   * The four artifacts of one snapshot.  JSON serialisation is a parameter;
   * it sees the `id` and `name` the live object carries after a load.  The
   * HTML artifact carries the CSS artifact verbatim.
   */
  function GenerateExports(s: HeadlineSettings, tag: Option<SaveTag>,
                           serialize: (HeadlineSettings, Option<SaveTag>) -> string): (r: ExportFormat)
    ensures r.json == serialize(s, tag)
    ensures SingleLine(s) ==> Split(r.css, '\n') == CssDocument(s)
    ensures HtmlLayout(r.html, s.text, r.css)
    ensures ReactSingleLine(s) ==> Split(r.react, '\n') == ReactDocument(s)
  {
    var css := RenderCss(s);
    CssText(s);
    ReactText(s);
    HtmlEmbeds(s.text, css);
    ExportFormat(serialize(s, tag), css, HtmlCode(s.text, css), RenderReact(s))
  }

  // ---------------------------------------------------------------------
  // Tabs and download names
  // ---------------------------------------------------------------------

  datatype Tab = JsonTab | CssTab | HtmlTab | ReactTab

  /** The key of a tab, which names the artifact it shows. */
  function Key(t: Tab): string {
    match t
    case JsonTab => "json"
    case CssTab => "css"
    case HtmlTab => "html"
    case ReactTab => "react"
  }

  function Label(t: Tab): string {
    match t
    case JsonTab => "JSON Settings"
    case CssTab => "CSS Styles"
    case HtmlTab => "HTML Code"
    case ReactTab => "React Component"
  }

  /** The file extension of a tab: its key, except tsx for the React component. */
  function Extension(t: Tab): (r: string)
    ensures t == ReactTab ==> r == "tsx"
    ensures t != ReactTab ==> r == Key(t)
  {
    match t
    case JsonTab => "json"
    case CssTab => "css"
    case HtmlTab => "html"
    case ReactTab => "tsx"
  }

  /** The tab list in display order. */
  const Tabs := [JsonTab, CssTab, HtmlTab, ReactTab]

  /** `tabs.find((t) => t.key === key)`. */
  function FindTab(tabs: seq<Tab>, key: string): (r: Option<Tab>)
    ensures r.Some? ==> r.value in tabs && Key(r.value) == key
    ensures r.None? ==> forall i :: 0 <= i < |tabs| ==> Key(tabs[i]) != key
  {
    if tabs == [] then None
    else if Key(tabs[0]) == key then Some(tabs[0])
    else FindTab(tabs[1..], key)
  }

  /** The keys already differ in their first letter. */
  lemma KeyInitialInjective(a: Tab, b: Tab)
    ensures Key(a)[0] == Key(b)[0] ==> a == b
  {
  }

  /** Every tab is found by its own key. */
  lemma FindTabByKey(t: Tab)
    ensures FindTab(Tabs, Key(t)) == Some(t)
  {
    var rest := Tabs[1..];
    assert rest == [CssTab, HtmlTab, ReactTab];
    assert rest[1..] == [HtmlTab, ReactTab];
    assert rest[1..][1..] == [ReactTab];
    if t != JsonTab {
      KeyInitialInjective(t, JsonTab);
      assert FindTab(Tabs, Key(t)) == FindTab(rest, Key(t));
      if t != CssTab {
        KeyInitialInjective(t, CssTab);
        assert FindTab(rest, Key(t)) == FindTab(rest[1..], Key(t));
        if t != HtmlTab {
          KeyInitialInjective(t, HtmlTab);
          assert FindTab(rest[1..], Key(t)) == FindTab(rest[1..][1..], Key(t));
        }
      }
    }
  }

  /** `exports[activeTab]`. */
  function Artifact(e: ExportFormat, t: Tab): string {
    match t
    case JsonTab => e.json
    case CssTab => e.css
    case HtmlTab => e.html
    case ReactTab => e.react
  }

  /** `headline-<key>.<extension>`, with the extension looked up in the tab list. */
  function DownloadName(t: Tab): (name: string)
    ensures name == "headline-" + Key(t) + "." + Extension(t)
  {
    var found := FindTab(Tabs, Key(t));
    FindTabByKey(t);
    "headline-" + Key(t) + "." + (if found.Some? then Extension(found.value) else "undefined")
  }

  /** Different tabs download under different names. */
  lemma DownloadNameInjective(a: Tab, b: Tab)
    ensures DownloadName(a) == DownloadName(b) ==> a == b
  {
    NameInitial(a);
    NameInitial(b);
    KeyInitialInjective(a, b);
  }

  /** The character after "headline-" is the initial of the tab's key. */
  lemma NameInitial(t: Tab)
    ensures |DownloadName(t)| > 9 && |Key(t)| >= 1 && DownloadName(t)[9] == Key(t)[0]
  {
    assert |Key(t)| >= 1;
    CharAfterPrefix("headline-", Key(t), "." + Extension(t));
    assert "headline-" + Key(t) + "." + Extension(t) == "headline-" + Key(t) + ("." + Extension(t));
  }

  lemma CharAfterPrefix(p: string, k: string, rest: string)
    requires |k| >= 1
    ensures |p + k + rest| > |p| && (p + k + rest)[|p|] == k[0]
  {
  }
}
