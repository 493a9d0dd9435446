/**
 * The headline configuration record, its enumerated fields, the highlight
 * rule, the partial record a control emits, and the four export artifacts.
 */
module Types {
  import opened Numbers

  datatype Option<T> = None | Some(value: T)

  /** JavaScript `o || d` for an optional string: an absent or empty value falls back to d. */
  function OrElse(o: Option<string>, d: string): (r: string)
    ensures (o.Some? && o.value != "") ==> r == o.value
    ensures (o.None? || o.value == "") ==> r == d
  {
    if o.Some? && o.value != "" then o.value else d
  }

  /** JavaScript truthiness of an optional string. */
  predicate Truthy(o: Option<string>) {
    o.Some? && o.value != ""
  }

  datatype TextAlign = Left | Center | Right

  function TextAlignToken(a: TextAlign): (r: string)
    ensures r in {"left", "center", "right"}
  {
    match a
    case Left => "left"
    case Center => "center"
    case Right => "right"
  }

  datatype GradientDirection = ToR | ToL | ToB | ToT | ToBR | ToBL

  function DirectionToken(d: GradientDirection): (r: string)
    ensures |r| >= 4 && r[..3] == "to-"
  {
    match d
    case ToR => "to-r"
    case ToL => "to-l"
    case ToB => "to-b"
    case ToT => "to-t"
    case ToBR => "to-br"
    case ToBL => "to-bl"
  }

  datatype AnimationType = NoAnimation | FadeIn | SlideUp | Bounce | Glow | Shimmer | TypewriterAnimation

  function AnimationToken(t: AnimationType): (r: string)
    ensures r in {"none", "fade-in", "slide-up", "bounce", "glow", "shimmer", "typewriter"}
    ensures (r == "none") <==> t == NoAnimation
    ensures (r == "typewriter") <==> t == TypewriterAnimation
  {
    match t
    case NoAnimation => "none"
    case FadeIn => "fade-in"
    case SlideUp => "slide-up"
    case Bounce => "bounce"
    case Glow => "glow"
    case Shimmer => "shimmer"
    case TypewriterAnimation => "typewriter"
  }

  /** Each animation type has its own token (the export names its keyframes after it). */
  lemma AnimationTokenInjective(a: AnimationType, b: AnimationType)
    ensures AnimationToken(a) == AnimationToken(b) ==> a == b
  {
  }

  datatype HighlightStyle = Highlight | Underline | Background | Bold | Italic

  function HighlightStyleToken(h: HighlightStyle): (r: string)
    ensures r in {"highlight", "underline", "background", "bold", "italic"}
  {
    match h
    case Highlight => "highlight"
    case Underline => "underline"
    case Background => "background"
    case Bold => "bold"
    case Italic => "italic"
  }

  /** One entry of `highlightedWords`. */
  datatype HighlightRule = HighlightRule(
    word: string,
    style: HighlightStyle,
    color: Option<string>,
    backgroundColor: Option<string>)

  /** The whole configuration of one headline. */
  datatype HeadlineSettings = HeadlineSettings(
    text: string,
    fontSize: Num,
    fontFamily: string,
    fontWeight: Num,
    textAlign: TextAlign,
    color: string,
    backgroundColor: string,
    padding: Num,
    margin: Num,
    letterSpacing: Num,
    lineHeight: Num,
    gradientEnabled: bool,
    gradientDirection: GradientDirection,
    gradientColors: seq<string>,
    textShadow: bool,
    textOutline: bool,
    outlineColor: string,
    shadowColor: string,
    shadowBlur: Num,
    shadowOffsetX: Num,
    shadowOffsetY: Num,
    animationType: AnimationType,
    animationDuration: Num,
    animationDelay: Num,
    highlightedWords: seq<HighlightRule>)

  /** `Partial<HeadlineSettings>`: a field is present exactly when it is Some. */
  datatype Patch = Patch(
    text: Option<string>,
    fontSize: Option<Num>,
    fontFamily: Option<string>,
    fontWeight: Option<Num>,
    textAlign: Option<TextAlign>,
    color: Option<string>,
    backgroundColor: Option<string>,
    padding: Option<Num>,
    margin: Option<Num>,
    letterSpacing: Option<Num>,
    lineHeight: Option<Num>,
    gradientEnabled: Option<bool>,
    gradientDirection: Option<GradientDirection>,
    gradientColors: Option<seq<string>>,
    textShadow: Option<bool>,
    textOutline: Option<bool>,
    outlineColor: Option<string>,
    shadowColor: Option<string>,
    shadowBlur: Option<Num>,
    shadowOffsetX: Option<Num>,
    shadowOffsetY: Option<Num>,
    animationType: Option<AnimationType>,
    animationDuration: Option<Num>,
    animationDelay: Option<Num>,
    highlightedWords: Option<seq<HighlightRule>>)

  /** The patch `{}`. */
  const EmptyPatch := Patch(None, None, None, None, None, None, None, None, None, None, None, None, None,
                            None, None, None, None, None, None, None, None, None, None, None, None)

  /** The `id` and `name` a saved snapshot carries besides the configuration. */
  datatype SaveTag = SaveTag(id: string, name: string)

  /** The four generated artifacts, keyed like the export tabs. */
  datatype ExportFormat = ExportFormat(json: string, css: string, html: string, react: string)
}
