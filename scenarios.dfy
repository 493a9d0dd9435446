/** Worked cases of the model on the default configuration. */
module Scenarios {
  import opened Numbers
  import opened Types
  import opened Defaults
  import opened Preview
  import opened Export
  import opened Controls

  /** The default composes to dark grey text with no gradient, background, shadow or outline. */
  lemma DefaultPreviewStyle()
    ensures var st := PreviewStyle(DefaultSettings);
      && st.color == Some("#1f2937")
      && st.background.None? && st.backgroundColor.None? && st.textShadow.None? && st.WebkitTextStroke.None?
  {
  }

  /** The default font size composes to "48px". */
  lemma DefaultFontSize()
    ensures PreviewStyle(DefaultSettings).fontSize == Some("48px")
  {
    FortyEight();
    assert "48" + "px" == "48px";
  }

  lemma FortyEight()
    ensures NumToStr(Num(48, 0)) == "48"
  {
    WholeNumToStr(48);
    assert NatToStr(48) == NatToStr(4) + [DigitChar(8)];
  }

  /** The default's transparent background is left out by the export too. */
  lemma DefaultExportHasNoBackground()
    ensures CssStyle(DefaultSettings).backgroundColor.None? && CssStyle(DefaultSettings).color == Some("#1f2937")
  {
  }

  /** The default has no highlight rules, so the preview shows the text as one plain segment. */
  lemma DefaultOnePlainSegment(baseColor: string)
    ensures Highlighted(DefaultSettings.text, DefaultSettings.highlightedWords, baseColor)
            == [Plain("Create Amazing Headlines")]
  {
  }

  /** The default fades in, so the stylesheet ends with the fade-in keyframes. */
  lemma DefaultCssFadesIn()
    ensures var lines := AnimationLines(DefaultSettings);
      && |lines| == 9
      && lines[5] == "@keyframes fade-in {"
      && lines[6..8] == KeyframeLines(Keyframes(FadeIn))
  {
  }

  /** The default gradient has exactly the two stops a removal may not go below. */
  lemma DefaultGradientAtFloor(index: int)
    ensures |DefaultSettings.gradientColors| == MinGradientColors
    ensures RemoveGradientColor(DefaultSettings, index).None?
  {
  }
}
