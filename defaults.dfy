/** The configuration the editor starts from and resets to (`DEFAULT_SETTINGS`). */
module Defaults {
  import opened Numbers
  import opened Types

  const DefaultSettings := HeadlineSettings(
    text := "Create Amazing Headlines",
    fontSize := Num(48, 0),
    fontFamily := "Inter",
    fontWeight := Num(700, 0),
    textAlign := Center,
    color := "#1f2937",
    backgroundColor := "transparent",
    padding := Num(20, 0),
    margin := Num(10, 0),
    letterSpacing := Num(0, 0),
    lineHeight := Num(12, 1),
    gradientEnabled := false,
    gradientDirection := ToR,
    gradientColors := ["#3b82f6", "#8b5cf6"],
    textShadow := false,
    textOutline := false,
    outlineColor := "#000000",
    shadowColor := "#000000",
    shadowBlur := Num(4, 0),
    shadowOffsetX := Num(2, 0),
    shadowOffsetY := Num(2, 0),
    animationType := FadeIn,
    animationDuration := Num(8, 1),
    animationDelay := Num(0, 0),
    highlightedWords := [])
}
