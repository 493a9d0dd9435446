/**
 * The live preview: the style record composed from the settings, the
 * splitting of the text into plain and highlighted segments, and the
 * motion properties and class name chosen by the animation type.
 */
module Preview {
  import opened Numbers
  import opened Strings
  import opened Types

  /** A value a style property can take: a string, or a bare number (fontWeight, lineHeight). */
  datatype CssValue = Str(s: string) | Number(n: Num)

  /**
   * The style properties the core sets (a slice of `React.CSSProperties`);
   * a property is set exactly when it is Some.
   */
  datatype Style = Style(
    fontSize: Option<string>,
    fontFamily: Option<string>,
    fontWeight: Option<CssValue>,
    textAlign: Option<string>,
    letterSpacing: Option<string>,
    lineHeight: Option<CssValue>,
    padding: Option<string>,
    margin: Option<string>,
    background: Option<string>,
    backgroundClip: Option<string>,
    WebkitBackgroundClip: Option<string>,
    WebkitTextFillColor: Option<string>,
    backgroundSize: Option<string>,
    color: Option<string>,
    backgroundColor: Option<string>,
    textShadow: Option<string>,
    WebkitTextStroke: Option<string>,
    textDecoration: Option<string>,
    textDecorationColor: Option<string>,
    borderRadius: Option<string>,
    fontStyle: Option<string>)

  /** The style object `{}`. */
  const EmptyStyle := Style(None, None, None, None, None, None, None, None, None, None, None,
                            None, None, None, None, None, None, None, None, None, None)

  // ---------------------------------------------------------------------
  // Style composer
  // ---------------------------------------------------------------------

  /** The CSS direction keyword: the token with its hyphen after "to" made a space. */
  function DirectionCss(d: GradientDirection): string {
    "to " + DirectionToken(d)[3..]
  }

  /** The keyword is what `gradientDirection.replace("to-", "to ")` gives. */
  lemma DirectionCssReplaces(d: GradientDirection)
    ensures DirectionCss(d) == ReplaceFirst(DirectionToken(d), "to-", "to ")
  {
    var token := DirectionToken(d);
    assert MatchesAt(token, "to-", 0);
    assert token[..0] == "";
  }

  /** The gradient fill shared by the preview and every export format. */
  function GradientCss(d: GradientDirection, colors: seq<string>): string {
    "linear-gradient(" + DirectionCss(d) + ", " + Join(colors, ", ") + ")"
  }

  /** "Xpx Ypx Bpx C". */
  function ShadowCss(s: HeadlineSettings): string {
    NumToStr(s.shadowOffsetX) + "px " + NumToStr(s.shadowOffsetY) + "px "
      + NumToStr(s.shadowBlur) + "px " + s.shadowColor
  }

  /** "2px C". */
  function StrokeCss(s: HeadlineSettings): string {
    "2px " + s.outlineColor
  }

  function Px(n: Num): string {
    NumToStr(n) + "px"
  }

  /** The preview paints a background only for a non-empty colour other than "transparent". */
  predicate PreviewHasBackground(s: HeadlineSettings) {
    s.backgroundColor != "" && s.backgroundColor != "transparent"
  }

  /** The typography part of the record, always present. */
  function TypographyStyle(s: HeadlineSettings): Style {
    EmptyStyle.(
      fontSize := Some(Px(s.fontSize)),
      fontFamily := Some(s.fontFamily),
      fontWeight := Some(Number(s.fontWeight)),
      textAlign := Some(TextAlignToken(s.textAlign)),
      letterSpacing := Some(Px(s.letterSpacing)),
      lineHeight := Some(Number(s.lineHeight)),
      padding := Some(Px(s.padding)),
      margin := Some(Px(s.margin)))
  }

  /**
   * The style record of the headline.  Its contract is the composer's
   * promise: the gradient and the plain colour exclude each other, and the
   * background, shadow and stroke are each present exactly when their
   * setting asks for them; the typography is passed through with units.
   */
  function PreviewStyle(s: HeadlineSettings): (r: Style)
    ensures r.fontSize == Some(NumToStr(s.fontSize) + "px")
    ensures r.fontFamily == Some(s.fontFamily)
    ensures r.fontWeight == Some(Number(s.fontWeight))
    ensures r.textAlign == Some(TextAlignToken(s.textAlign))
    ensures r.letterSpacing == Some(NumToStr(s.letterSpacing) + "px")
    ensures r.lineHeight == Some(Number(s.lineHeight))
    ensures r.padding == Some(NumToStr(s.padding) + "px") && r.margin == Some(NumToStr(s.margin) + "px")
    ensures r.color.Some? <==> !s.gradientEnabled
    ensures r.color.Some? ==> r.color.value == s.color
    ensures r.background.Some? <==> s.gradientEnabled
    ensures r.WebkitTextFillColor.Some? <==> s.gradientEnabled
    ensures s.gradientEnabled ==>
      && r.background == Some(GradientCss(s.gradientDirection, s.gradientColors))
      && r.WebkitTextFillColor == Some("transparent")
      && r.backgroundClip == Some("text")
      && r.WebkitBackgroundClip == Some("text")
      && r.backgroundSize == Some("200% 200%")
    ensures !s.gradientEnabled ==> r.backgroundClip.None? && r.WebkitBackgroundClip.None? && r.backgroundSize.None?
    ensures r.backgroundColor.Some? <==> PreviewHasBackground(s)
    ensures r.backgroundColor.Some? ==> r.backgroundColor.value == s.backgroundColor
    ensures r.textShadow.Some? <==> s.textShadow
    ensures r.textShadow.Some? ==> r.textShadow.value == ShadowCss(s)
    ensures r.WebkitTextStroke.Some? <==> s.textOutline
    ensures r.WebkitTextStroke.Some? ==> r.WebkitTextStroke.value == StrokeCss(s)
    ensures r.textDecoration.None? && r.textDecorationColor.None? && r.borderRadius.None? && r.fontStyle.None?
  {
    var g := s.gradientEnabled;
    TypographyStyle(s).(
      background := if g then Some(GradientCss(s.gradientDirection, s.gradientColors)) else None,
      backgroundClip := if g then Some("text") else None,
      WebkitBackgroundClip := if g then Some("text") else None,
      WebkitTextFillColor := if g then Some("transparent") else None,
      backgroundSize := if g then Some("200% 200%") else None,
      color := if g then None else Some(s.color),
      backgroundColor := if PreviewHasBackground(s) then Some(s.backgroundColor) else None,
      textShadow := if s.textShadow then Some(ShadowCss(s)) else None,
      WebkitTextStroke := if s.textOutline then Some(StrokeCss(s)) else None)
  }

  /** `getTextStyle`: builds the record field by field. */
  method GetTextStyle(s: HeadlineSettings) returns (style: Style)
    ensures style == PreviewStyle(s)
  {
    style := EmptyStyle.(
      fontSize := Some(Px(s.fontSize)),
      fontFamily := Some(s.fontFamily),
      fontWeight := Some(Number(s.fontWeight)),
      textAlign := Some(TextAlignToken(s.textAlign)),
      letterSpacing := Some(Px(s.letterSpacing)),
      lineHeight := Some(Number(s.lineHeight)),
      padding := Some(Px(s.padding)),
      margin := Some(Px(s.margin)));

    if s.gradientEnabled {
      style := style.(background := Some(GradientCss(s.gradientDirection, s.gradientColors)));
      style := style.(backgroundClip := Some("text"));
      style := style.(WebkitBackgroundClip := Some("text"));
      style := style.(WebkitTextFillColor := Some("transparent"));
      style := style.(backgroundSize := Some("200% 200%"));
    } else {
      style := style.(color := Some(s.color));
    }

    if s.backgroundColor != "" && s.backgroundColor != "transparent" {
      style := style.(backgroundColor := Some(s.backgroundColor));
    }

    if s.textShadow {
      style := style.(textShadow := Some(ShadowCss(s)));
    }

    if s.textOutline {
      style := style.(WebkitTextStroke := Some(StrokeCss(s)));
    }
  }

  // ---------------------------------------------------------------------
  // Highlight segmenter
  // ---------------------------------------------------------------------

  datatype Segment = Plain(text: string) | Styled(text: string, style: Style)

  /** The text of the segments, in order. */
  function Concat(segments: seq<Segment>): string {
    if segments == [] then "" else Concat(segments[..|segments| - 1]) + segments[|segments| - 1].text
  }

  lemma ConcatAppend(a: seq<Segment>, b: seq<Segment>)
    ensures Concat(a + b) == Concat(a) + Concat(b)
    decreases |b|
  {
    if b != [] {
      var b' := b[..|b| - 1];
      assert (a + b)[..|a + b| - 1] == a + b';
      assert (a + b)[|a + b| - 1] == b[|b| - 1];
      ConcatAppend(a, b');
      assert Concat(a + b) == Concat(a + b') + b[|b| - 1].text;
      assert Concat(b) == Concat(b') + b[|b| - 1].text;
    } else {
      assert a + b == a;
    }
  }

  /** The style of the span that shows a matched word. */
  function SpanStyle(rule: HighlightRule, baseColor: string): (r: Style)
    ensures rule.style == Highlight ==>
      r == EmptyStyle.(backgroundColor := Some(OrElse(rule.backgroundColor, "#ffeb3b")),
                       color := Some(OrElse(rule.color, "#000")))
    ensures rule.style == Underline ==>
      r == EmptyStyle.(textDecoration := Some("underline"),
                       textDecorationColor := Some(OrElse(rule.color, baseColor)))
    ensures rule.style == Background ==>
      r == EmptyStyle.(backgroundColor := Some(OrElse(rule.backgroundColor, "#e3f2fd")),
                       padding := Some("2px 4px"), borderRadius := Some("4px"))
    ensures rule.style == Bold ==>
      r == EmptyStyle.(fontWeight := Some(Str("bold")),
                       color := if Truthy(rule.color) then rule.color else None)
    ensures rule.style == Italic ==>
      r == EmptyStyle.(fontStyle := Some("italic"),
                       color := if Truthy(rule.color) then rule.color else None)
    ensures rule.style == Background ==> r.color.None?
  {
    var highlightStyle := EmptyStyle;
    match rule.style
    case Highlight =>
      highlightStyle.(backgroundColor := Some(OrElse(rule.backgroundColor, "#ffeb3b")),
                      color := Some(OrElse(rule.color, "#000")))
    case Underline =>
      highlightStyle.(textDecoration := Some("underline"),
                      textDecorationColor := Some(OrElse(rule.color, baseColor)))
    case Background =>
      highlightStyle.(backgroundColor := Some(OrElse(rule.backgroundColor, "#e3f2fd")),
                      padding := Some("2px 4px"), borderRadius := Some("4px"))
    case Bold =>
      var bold := highlightStyle.(fontWeight := Some(Str("bold")));
      if Truthy(rule.color) then bold.(color := rule.color) else bold
    case Italic =>
      var italic := highlightStyle.(fontStyle := Some("italic"));
      if Truthy(rule.color) then italic.(color := rule.color) else italic
  }

  /** Case-insensitive search for the rule's word, from the cursor on. */
  function Find(text: string, word: string, cursor: nat): (p: int)
    requires cursor <= |text|
    ensures p == -1 || (cursor <= p && p + |word| <= |text|)
  {
    IndexOf(Lower(text), Lower(word), cursor)
  }

  /** The segments emitted so far and the cursor `lastIndex`. */
  datatype ScanState = ScanState(elements: seq<Segment>, lastIndex: nat)

  /** Processing of one rule: a miss changes nothing, a hit emits and moves the cursor past the word. */
  function Step(text: string, rule: HighlightRule, baseColor: string, st: ScanState): (r: ScanState)
    requires st.lastIndex <= |text|
    ensures st.lastIndex <= r.lastIndex <= |text|
    ensures Find(text, rule.word, st.lastIndex) == -1 ==> r == st
    ensures Find(text, rule.word, st.lastIndex) != -1 ==>
      r.lastIndex == Find(text, rule.word, st.lastIndex) + |rule.word|
  {
    var p := Find(text, rule.word, st.lastIndex);
    if p == -1 then st
    else
      var before := if p > st.lastIndex then [Plain(text[st.lastIndex..p])] else [];
      ScanState(st.elements + before + [Styled(text[p..p + |rule.word|], SpanStyle(rule, baseColor))],
                p + |rule.word|)
  }

  /**
   * A hit of the search is a case-insensitive occurrence of the word, and
   * the leftmost one at or after the cursor.
   */
  lemma FindHit(text: string, word: string, cursor: nat, p: nat)
    requires cursor <= |text|
    requires Find(text, word, cursor) == p
    ensures MatchesAt(Lower(text), Lower(word), p)
    ensures forall k: nat :: cursor <= k < p ==> !MatchesAt(Lower(text), Lower(word), k)
  {
    IndexOfLeftmost(Lower(text), Lower(word), cursor);
  }

  /** A miss means the word does not occur, case-insensitively, anywhere at or after the cursor. */
  lemma FindMiss(text: string, word: string, cursor: nat)
    requires cursor <= |text|
    requires Find(text, word, cursor) == -1
    ensures forall k: nat :: cursor <= k ==> !MatchesAt(Lower(text), Lower(word), k)
  {
    IndexOfLeftmost(Lower(text), Lower(word), cursor);
  }

  /**
   * On a hit at p the step emits the text skipped over (if any) as a plain
   * segment, then the matched original text as a styled segment, and moves
   * the cursor past the match; the match is the word up to case, and the
   * word does not occur between the cursor and p.
   */
  lemma StepHit(text: string, rule: HighlightRule, baseColor: string, st: ScanState, p: nat)
    requires st.lastIndex <= |text|
    requires Find(text, rule.word, st.lastIndex) == p
    ensures st.lastIndex <= p && p + |rule.word| <= |text|
    ensures MatchesAt(Lower(text), Lower(rule.word), p)
    ensures forall k: nat :: st.lastIndex <= k < p ==> !MatchesAt(Lower(text), Lower(rule.word), k)
    ensures Step(text, rule, baseColor, st)
            == ScanState(st.elements
                         + (if p > st.lastIndex then [Plain(text[st.lastIndex..p])] else [])
                         + [Styled(text[p..p + |rule.word|], SpanStyle(rule, baseColor))],
                         p + |rule.word|)
  {
    StepShape(text, rule, baseColor, st, p);
    FindHit(text, rule.word, st.lastIndex, p);
  }

  /** The step on a hit, stated without the search facts. */
  lemma StepShape(text: string, rule: HighlightRule, baseColor: string, st: ScanState, p: nat)
    requires st.lastIndex <= |text|
    requires Find(text, rule.word, st.lastIndex) == p
    ensures st.lastIndex <= p && p + |rule.word| <= |text|
    ensures Step(text, rule, baseColor, st)
            == ScanState(st.elements
                         + (if p > st.lastIndex then [Plain(text[st.lastIndex..p])] else [])
                         + [Styled(text[p..p + |rule.word|], SpanStyle(rule, baseColor))],
                         p + |rule.word|)
  {
  }

  /** The rules processed in list order, starting with cursor 0. */
  function Scan(text: string, rules: seq<HighlightRule>, baseColor: string): (r: ScanState)
    ensures r.lastIndex <= |text|
    decreases |rules|
  {
    if rules == [] then ScanState([], 0)
    else Step(text, rules[|rules| - 1], baseColor, Scan(text, rules[..|rules| - 1], baseColor))
  }

  /** The output of the segmenter. */
  function Highlighted(text: string, rules: seq<HighlightRule>, baseColor: string): seq<Segment> {
    if |rules| == 0 then [Plain(text)]
    else
      var st := Scan(text, rules, baseColor);
      st.elements + (if st.lastIndex < |text| then [Plain(text[st.lastIndex..])] else [])
  }

  lemma PrefixSplit(t: string, i: nat, j: nat)
    requires i <= j <= |t|
    ensures t[..j] == t[..i] + t[i..j]
  {
  }

  /** Every plain segment holds some text. */
  predicate NoEmptyPlain(segments: seq<Segment>) {
    forall i :: 0 <= i < |segments| && segments[i].Plain? ==> segments[i].text != ""
  }

  /**
   * The segments emitted by the scan spell out the text up to the cursor,
   * and no plain segment is empty.
   */
  lemma {:induction false} ScanCovers(text: string, rules: seq<HighlightRule>, baseColor: string)
    ensures Concat(Scan(text, rules, baseColor).elements) == text[..Scan(text, rules, baseColor).lastIndex]
    ensures NoEmptyPlain(Scan(text, rules, baseColor).elements)
    decreases |rules|
  {
    if rules != [] {
      ScanCovers(text, rules[..|rules| - 1], baseColor);
      StepCovers(text, rules[|rules| - 1], baseColor, Scan(text, rules[..|rules| - 1], baseColor));
    }
  }

  /** One step keeps "the segments spell the text up to the cursor". */
  lemma StepCovers(text: string, rule: HighlightRule, baseColor: string, st: ScanState)
    requires st.lastIndex <= |text|
    requires Concat(st.elements) == text[..st.lastIndex] && NoEmptyPlain(st.elements)
    ensures Concat(Step(text, rule, baseColor, st).elements) == text[..Step(text, rule, baseColor, st).lastIndex]
    ensures NoEmptyPlain(Step(text, rule, baseColor, st).elements)
  {
    var r := Step(text, rule, baseColor, st);
    var p := Find(text, rule.word, st.lastIndex);
    if p != -1 {
      var before := if p > st.lastIndex then [Plain(text[st.lastIndex..p])] else [];
      var hit := [Styled(text[p..r.lastIndex], SpanStyle(rule, baseColor))];
      assert r.elements == st.elements + before + hit by {
        StepShape(text, rule, baseColor, st, p);
      }
      assert Concat(r.elements) == text[..r.lastIndex] by {
        ConcatAppend(st.elements, before);
        ConcatAppend(st.elements + before, hit);
        assert Concat(before) == text[st.lastIndex..p] by {
          if p > st.lastIndex {
            assert before[..0] == [];
          }
        }
        assert Concat(hit) == text[p..r.lastIndex] by {
          assert hit[..0] == [];
        }
        PrefixSplit(text, st.lastIndex, p);
        PrefixSplit(text, p, r.lastIndex);
      }
    }
  }

  /** Concatenating the segments in order gives back the text, whatever the rules. */
  lemma HighlightedCovers(text: string, rules: seq<HighlightRule>, baseColor: string)
    ensures Concat(Highlighted(text, rules, baseColor)) == text
    ensures |rules| > 0 ==> NoEmptyPlain(Highlighted(text, rules, baseColor))
  {
    if |rules| == 0 {
      assert [Plain(text)][..0] == [];
    } else {
      ScanCovers(text, rules, baseColor);
      RemainderCovers(text, Scan(text, rules, baseColor));
    }
  }

  /** Adding the remaining text after the cursor completes the spelling of the text. */
  lemma RemainderCovers(text: string, st: ScanState)
    requires st.lastIndex <= |text|
    requires Concat(st.elements) == text[..st.lastIndex] && NoEmptyPlain(st.elements)
    ensures var out := st.elements + (if st.lastIndex < |text| then [Plain(text[st.lastIndex..])] else []);
      Concat(out) == text && NoEmptyPlain(out)
  {
    if st.lastIndex < |text| {
      var tail := [Plain(text[st.lastIndex..])];
      ConcatAppend(st.elements, tail);
      assert tail[..0] == [];
      assert text == text[..st.lastIndex] + text[st.lastIndex..];
    } else {
      assert st.elements + [] == st.elements;
    }
  }

  /** With no rules, the whole text is one plain segment. */
  lemma NoRulesOnePlainSegment(text: string, baseColor: string)
    ensures Highlighted(text, [], baseColor) == [Plain(text)]
  {
  }

  /** A single rule that misses leaves the text as one plain segment, or none for an empty text. */
  lemma OneRuleMiss(text: string, rule: HighlightRule, baseColor: string)
    requires Find(text, rule.word, 0) == -1
    ensures Highlighted(text, [rule], baseColor) == if text == "" then [] else [Plain(text)]
  {
    assert [rule][..0] == [];
    assert Scan(text, [rule], baseColor) == ScanState([], 0);
    assert text[0..] == text;
  }

  /** A single rule that hits at p splits the text into the part before, the match and the part after. */
  lemma OneRuleHit(text: string, rule: HighlightRule, baseColor: string, p: nat)
    requires Find(text, rule.word, 0) == p
    ensures p + |rule.word| <= |text|
    ensures Highlighted(text, [rule], baseColor)
            == (if p > 0 then [Plain(text[..p])] else [])
               + [Styled(text[p..p + |rule.word|], SpanStyle(rule, baseColor))]
               + (if p + |rule.word| < |text| then [Plain(text[p + |rule.word|..])] else [])
  {
    assert [rule][..0] == [];
    StepShape(text, rule, baseColor, ScanState([], 0), p);
    assert Scan(text, [rule], baseColor) == Step(text, rule, baseColor, ScanState([], 0));
    assert text[0..p] == text[..p];
  }

  /** With rules whose words are all non-empty, an empty text yields no segment at all. */
  lemma {:induction false} EmptyTextNoSegments(rules: seq<HighlightRule>, baseColor: string)
    requires |rules| > 0
    requires forall i :: 0 <= i < |rules| ==> rules[i].word != ""
    ensures Highlighted("", rules, baseColor) == []
  {
    ScanOfEmptyText(rules, baseColor);
  }

  lemma {:induction false} ScanOfEmptyText(rules: seq<HighlightRule>, baseColor: string)
    requires forall i :: 0 <= i < |rules| ==> rules[i].word != ""
    ensures Scan("", rules, baseColor) == ScanState([], 0)
    decreases |rules|
  {
    if rules != [] {
      ScanOfEmptyText(rules[..|rules| - 1], baseColor);
      assert !MatchesAt(Lower(""), Lower(rules[|rules| - 1].word), 0);
    }
  }

  /** Scanning one more rule is one more step. */
  lemma ScanExtend(text: string, rules: seq<HighlightRule>, baseColor: string, i: nat)
    requires i < |rules|
    ensures Scan(text, rules[..i + 1], baseColor) == Step(text, rules[i], baseColor, Scan(text, rules[..i], baseColor))
  {
    assert rules[..i + 1][..i] == rules[..i];
  }

  /**
   * `processTextWithHighlights`: one pass over the rules in list order with
   * the cursor `lastIndex`, pushing segments into `elements`.
   */
  method ProcessTextWithHighlights(text: string, rules: seq<HighlightRule>, baseColor: string)
    returns (elements: seq<Segment>)
    ensures elements == Highlighted(text, rules, baseColor)
    ensures Concat(elements) == text
  {
    if |rules| == 0 {
      HighlightedCovers(text, rules, baseColor);
      return [Plain(text)];
    }
    var processedText := text;
    elements := [];
    var lastIndex: nat := 0;
    var i := 0;
    while i < |rules|
      invariant 0 <= i <= |rules|
      invariant ScanState(elements, lastIndex) == Scan(text, rules[..i], baseColor)
    {
      var highlight := rules[i];
      var wordIndex := IndexOf(Lower(processedText), Lower(highlight.word), lastIndex);
      assert wordIndex == Find(text, highlight.word, lastIndex);
      ghost var prev := ScanState(elements, lastIndex);
      ghost var next := Step(text, highlight, baseColor, prev);
      assert Scan(text, rules[..i + 1], baseColor) == next by {
        ScanExtend(text, rules, baseColor, i);
      }
      if wordIndex != -1 {
        ghost var skipped := if wordIndex > lastIndex then [Plain(text[lastIndex..wordIndex])] else [];
        if wordIndex > lastIndex {
          elements := elements + [Plain(processedText[lastIndex..wordIndex])];
        }
        assert elements == prev.elements + skipped;
        var highlightStyle := SpanStyle(highlight, baseColor);
        elements := elements + [Styled(processedText[wordIndex..wordIndex + |highlight.word|], highlightStyle)];
        lastIndex := wordIndex + |highlight.word|;
        assert ScanState(elements, lastIndex) == next by {
          StepShape(text, highlight, baseColor, prev, wordIndex);
        }
      } else {
        assert next == prev;
      }
      i := i + 1;
    }
    assert rules[..i] == rules;
    if lastIndex < |processedText| {
      elements := elements + [Plain(processedText[lastIndex..])];
    }
    HighlightedCovers(text, rules, baseColor);
  }

  // ---------------------------------------------------------------------
  // What the headline shows
  // ---------------------------------------------------------------------

  /** The children of the headline element. */
  datatype Content =
    | Typing(shown: string)               // the revealed prefix followed by a blinking caret
    | Segmented(segments: seq<Segment>)   // the highlighted text

  /** Typewriter mode shows the raw text without highlights; every other mode the segments. */
  function PreviewContent(s: HeadlineSettings, displayText: string): (c: Content)
    ensures s.animationType == TypewriterAnimation ==> c == Typing(displayText)
    ensures s.animationType != TypewriterAnimation ==>
      c.Segmented? && Concat(c.segments) == displayText
  {
    if s.animationType == TypewriterAnimation then Typing(displayText)
    else
      HighlightedCovers(displayText, s.highlightedWords, s.color);
      Segmented(Highlighted(displayText, s.highlightedWords, s.color))
  }

  // ---------------------------------------------------------------------
  // Motion properties and animation class
  // ---------------------------------------------------------------------

  datatype YMotion = NoY | YTo(y: int) | YKeyframes(ys: seq<int>)
  datatype RepeatMode = Once | Forever
  datatype MotionTransition = MotionTransition(duration: Num, delay: Num, repeat: RepeatMode, repeatDelay: Option<int>)
  datatype MotionTarget = MotionTarget(opacity: int, y: YMotion, transition: Option<MotionTransition>)
  datatype AnimationProps = AnimationProps(initial: MotionTarget, animate: MotionTarget, transition: MotionTransition)

  /** `getAnimationProps`. */
  function GetAnimationProps(s: HeadlineSettings): (r: AnimationProps)
    ensures r.initial.opacity == 0 && r.animate.opacity == 1
    ensures r.transition == MotionTransition(s.animationDuration, s.animationDelay, Once, None)
    ensures r.initial.transition.None?
    ensures s.animationType == FadeIn ==> r.initial.y == YTo(20) && r.animate.y == YTo(0)
    ensures s.animationType == SlideUp ==> r.initial.y == YTo(50) && r.animate.y == YTo(0)
    ensures s.animationType in {FadeIn, SlideUp} ==> r.animate.transition.None?
    ensures s.animationType == Bounce ==>
      && r.initial.y == NoY
      && r.animate.y == YKeyframes([0, -10, 0])
      && r.animate.transition == Some(MotionTransition(s.animationDuration, s.animationDelay, Forever, Some(2)))
    ensures s.animationType !in {FadeIn, SlideUp, Bounce} ==>
      r.initial == MotionTarget(0, NoY, None) && r.animate == MotionTarget(1, NoY, None)
  {
    var base := AnimationProps(MotionTarget(0, NoY, None), MotionTarget(1, NoY, None),
                               MotionTransition(s.animationDuration, s.animationDelay, Once, None));
    match s.animationType
    case FadeIn => base.(initial := MotionTarget(0, YTo(20), None), animate := MotionTarget(1, YTo(0), None))
    case SlideUp => base.(initial := MotionTarget(0, YTo(50), None), animate := MotionTarget(1, YTo(0), None))
    case Bounce =>
      base.(animate := MotionTarget(1, YKeyframes([0, -10, 0]),
                                    Some(MotionTransition(s.animationDuration, s.animationDelay, Forever, Some(2)))))
    case _ => base
  }

  /** `getAnimationClass`. */
  function GetAnimationClass(t: AnimationType): (r: string)
    ensures t == Glow ==> r == "animate-glow"
    ensures t == Shimmer ==> r == "animate-shimmer shimmer-effect"
    ensures (r == "") <==> t !in {Glow, Shimmer}
  {
    match t
    case Glow => "animate-glow"
    case Shimmer => "animate-shimmer shimmer-effect"
    case _ => ""
  }
}
