/**
 * The edits the control panel sends to the store: each handler builds a
 * patch that touches one field (`ControlPanel`).
 */
module Controls {
  import opened Strings
  import opened Types
  import opened Store

  /** The patch carries field f and no other. */
  predicate Touches(p: Patch, f: Field) {
    forall g: Field :: PatchValue(p, g).Some? <==> g == f
  }

  /** A one-field patch changes that field of the store and no other. */
  lemma TouchesFrame(s: HeadlineSettings, p: Patch, f: Field)
    requires Touches(p, f)
    ensures Read(Merge(s, p), f) == PatchValue(p, f).value
    ensures forall g: Field :: g != f ==> Read(Merge(s, p), g) == Read(s, g)
  {
    MergeFields(s, p);
  }

  lemma ColorsPatchTouches(cs: seq<string>)
    ensures Touches(EmptyPatch.(gradientColors := Some(cs)), GradientColorsField)
  {
  }

  lemma RulesPatchTouches(rs: seq<HighlightRule>)
    ensures Touches(EmptyPatch.(highlightedWords := Some(rs)), HighlightedWordsField)
  {
  }

  /** `xs.filter((_, i) => i !== index)`: every entry except the one at index, in order. */
  function FilterOutIndex<T>(xs: seq<T>, index: int): (r: seq<T>)
    ensures 0 <= index < |xs| ==> r == xs[..index] + xs[index + 1..]
    ensures !(0 <= index < |xs|) ==> r == xs
  {
    if xs == [] then []
    else
      var rest := FilterOutIndex(xs[1..], index - 1);
      assert 0 < index < |xs| ==> xs[1..][..index - 1] == xs[1..index] && xs[1..][index..] == xs[index + 1..];
      if index == 0 then rest else [xs[0]] + rest
  }

  /** Copy the list into a fresh array, assign one entry, and read the array back. */
  method AssignAt<T(0)>(xs: seq<T>, index: nat, v: T) returns (ys: seq<T>)
    requires index < |xs|
    ensures ys == xs[index := v]
  {
    var copy := new T[|xs|];
    var k := 0;
    while k < |xs|
      invariant 0 <= k <= |xs|
      invariant copy[..k] == xs[..k]
    {
      copy[k] := xs[k];
      k := k + 1;
    }
    assert copy[..] == xs;
    copy[index] := v;
    ys := copy[..];
  }

  // ---------------------------------------------------------------------
  // Gradient colours
  // ---------------------------------------------------------------------

  /** The colour a new gradient stop starts with. */
  const NewGradientColor := "#3b82f6"

  /** Removing a stop is refused at this length or below. */
  const MinGradientColors := 2

  /** `addGradientColor`: append one stop, keeping the others. */
  function AddGradientColor(s: HeadlineSettings): (p: Patch)
    ensures Touches(p, GradientColorsField)
    ensures var cs := Merge(s, p).gradientColors;
      && |cs| == |s.gradientColors| + 1
      && cs[..|s.gradientColors|] == s.gradientColors
      && cs[|s.gradientColors|] == NewGradientColor
  {
    ColorsPatchTouches(s.gradientColors + [NewGradientColor]);
    EmptyPatch.(gradientColors := Some(s.gradientColors + [NewGradientColor]))
  }

  /** `updateGradientColor`: replace the stop at index and nothing else. */
  method UpdateGradientColor(s: HeadlineSettings, index: nat, color: string) returns (p: Patch)
    requires index < |s.gradientColors|
    ensures Touches(p, GradientColorsField)
    ensures var cs := Merge(s, p).gradientColors;
      && |cs| == |s.gradientColors| && cs[index] == color
      && forall j :: 0 <= j < |cs| && j != index ==> cs[j] == s.gradientColors[j]
  {
    var newColors := AssignAt(s.gradientColors, index, color);
    p := EmptyPatch.(gradientColors := Some(newColors));
    ColorsPatchTouches(newColors);
  }

  /** `removeGradientColor`: no patch at all at the floor, otherwise drop the stop at index. */
  function RemoveGradientColor(s: HeadlineSettings, index: int): (r: Option<Patch>)
    ensures r.None? <==> |s.gradientColors| <= MinGradientColors
    ensures r.Some? ==> Touches(r.value, GradientColorsField)
    ensures r.Some? && 0 <= index < |s.gradientColors| ==>
      Merge(s, r.value).gradientColors == s.gradientColors[..index] + s.gradientColors[index + 1..]
  {
    if |s.gradientColors| > MinGradientColors then
      var newColors := FilterOutIndex(s.gradientColors, index);
      ColorsPatchTouches(newColors);
      Some(EmptyPatch.(gradientColors := Some(newColors)))
    else
      None
  }

  /** The store after an optional patch: no patch, no change. */
  function ApplyOptional(s: HeadlineSettings, r: Option<Patch>): HeadlineSettings {
    if r.Some? then Merge(s, r.value) else s
  }

  /** Removal never takes a list of at least two stops below two. */
  lemma RemoveKeepsFloor(s: HeadlineSettings, index: int)
    requires |s.gradientColors| >= MinGradientColors
    ensures |ApplyOptional(s, RemoveGradientColor(s, index)).gradientColors| >= MinGradientColors
  {
  }

  /** Adding a stop and removing the new last one gives the old list back. */
  lemma AddThenRemoveLast(s: HeadlineSettings)
    requires |s.gradientColors| >= MinGradientColors
    ensures
      var t := Merge(s, AddGradientColor(s));
      ApplyOptional(t, RemoveGradientColor(t, |s.gradientColors|)).gradientColors == s.gradientColors
  {
    var cs := s.gradientColors + [NewGradientColor];
    assert cs[..|s.gradientColors|] == s.gradientColors;
    assert cs[|s.gradientColors| + 1..] == [];
  }

  // ---------------------------------------------------------------------
  // The three switches
  // ---------------------------------------------------------------------

  datatype Switch = GradientSwitch | ShadowSwitch | OutlineSwitch

  function SwitchField(w: Switch): Field {
    match w
    case GradientSwitch => GradientEnabledField
    case ShadowSwitch => TextShadowField
    case OutlineSwitch => TextOutlineField
  }

  /** The flag a switch shows. */
  function Flag(s: HeadlineSettings, w: Switch): bool {
    match w
    case GradientSwitch => s.gradientEnabled
    case ShadowSwitch => s.textShadow
    case OutlineSwitch => s.textOutline
  }

  /** The patch a click sends: the negated flag. */
  function Toggle(s: HeadlineSettings, w: Switch): (p: Patch)
    ensures Touches(p, SwitchField(w))
  {
    match w
    case GradientSwitch => EmptyPatch.(gradientEnabled := Some(!s.gradientEnabled))
    case ShadowSwitch => EmptyPatch.(textShadow := Some(!s.textShadow))
    case OutlineSwitch => EmptyPatch.(textOutline := Some(!s.textOutline))
  }

  /** A click negates its own flag and leaves the other switches alone. */
  lemma ToggleFlips(s: HeadlineSettings, w: Switch, other: Switch)
    ensures Flag(Merge(s, Toggle(s, w)), w) == !Flag(s, w)
    ensures other != w ==> Flag(Merge(s, Toggle(s, w)), other) == Flag(s, other)
  {
  }

  /** Two clicks restore the settings. */
  lemma ToggleTwice(s: HeadlineSettings, w: Switch)
    ensures var t := Merge(s, Toggle(s, w)); Merge(t, Toggle(t, w)) == s
  {
  }

  // ---------------------------------------------------------------------
  // Highlight rules
  // ---------------------------------------------------------------------

  /** The rule a new word gets: yellow highlight, black text. */
  function NewRule(word: string): HighlightRule {
    HighlightRule(word, Highlight, Some("#000"), Some("#ffeb3b"))
  }

  /** `addHighlightedWord`: nothing for blank input, otherwise append a rule for the trimmed word. */
  function AddHighlight(s: HeadlineSettings, input: string): (r: Option<Patch>)
    ensures r.None? <==> AllSpace(input)
    ensures r.Some? ==> Touches(r.value, HighlightedWordsField)
    ensures r.Some? ==>
      var rs := Merge(s, r.value).highlightedWords;
      && |rs| == |s.highlightedWords| + 1
      && rs[..|s.highlightedWords|] == s.highlightedWords
      && rs[|s.highlightedWords|] == NewRule(Trim(input))
      && Trim(input) != ""
  {
    var word := Trim(input);
    if word != "" then
      var rs := s.highlightedWords + [NewRule(word)];
      RulesPatchTouches(rs);
      assert rs[..|s.highlightedWords|] == s.highlightedWords;
      Some(EmptyPatch.(highlightedWords := Some(rs)))
    else
      None
  }

  /** `Partial` of a highlight rule: a field is set exactly when it is Some. */
  datatype RulePatch = RulePatch(
    word: Option<string>,
    style: Option<HighlightStyle>,
    color: Option<string>,
    backgroundColor: Option<string>)

  /** `{ ...rule, ...updates }`. */
  function MergeRule(rule: HighlightRule, u: RulePatch): (r: HighlightRule)
    ensures u.word.Some? ==> r.word == u.word.value
    ensures u.word.None? ==> r.word == rule.word
    ensures u.style.Some? ==> r.style == u.style.value
    ensures u.style.None? ==> r.style == rule.style
    ensures u.color.Some? ==> r.color == u.color
    ensures u.color.None? ==> r.color == rule.color
    ensures u.backgroundColor.Some? ==> r.backgroundColor == u.backgroundColor
    ensures u.backgroundColor.None? ==> r.backgroundColor == rule.backgroundColor
  {
    HighlightRule(
      if u.word.Some? then u.word.value else rule.word,
      if u.style.Some? then u.style.value else rule.style,
      if u.color.Some? then u.color else rule.color,
      if u.backgroundColor.Some? then u.backgroundColor else rule.backgroundColor)
  }

  /** An update applied twice is applied once; the empty update changes nothing. */
  lemma MergeRuleLaws(rule: HighlightRule, u: RulePatch)
    ensures MergeRule(MergeRule(rule, u), u) == MergeRule(rule, u)
    ensures MergeRule(rule, RulePatch(None, None, None, None)) == rule
  {
  }

  /** `updateHighlightedWord`: merge the update into the rule at index and leave the others. */
  method UpdateHighlightedWord(s: HeadlineSettings, index: nat, u: RulePatch) returns (p: Patch)
    requires index < |s.highlightedWords|
    ensures Touches(p, HighlightedWordsField)
    ensures var rs := Merge(s, p).highlightedWords;
      && |rs| == |s.highlightedWords| && rs[index] == MergeRule(s.highlightedWords[index], u)
      && forall j :: 0 <= j < |rs| && j != index ==> rs[j] == s.highlightedWords[j]
  {
    var newHighlights := AssignAt(s.highlightedWords, index, MergeRule(s.highlightedWords[index], u));
    p := EmptyPatch.(highlightedWords := Some(newHighlights));
    RulesPatchTouches(newHighlights);
  }

  /** `removeHighlightedWord`: drop the rule at index, keeping the order of the rest. */
  function RemoveHighlightedWord(s: HeadlineSettings, index: int): (p: Patch)
    ensures Touches(p, HighlightedWordsField)
    ensures 0 <= index < |s.highlightedWords| ==>
      Merge(s, p).highlightedWords == s.highlightedWords[..index] + s.highlightedWords[index + 1..]
    ensures !(0 <= index < |s.highlightedWords|) ==> Merge(s, p).highlightedWords == s.highlightedWords
  {
    var newHighlights := FilterOutIndex(s.highlightedWords, index);
    RulesPatchTouches(newHighlights);
    EmptyPatch.(highlightedWords := Some(newHighlights))
  }

  /** The panel's own state: the word typed into the highlight input. */
  class HighlightInput {
    var newHighlightWord: string

    constructor ()
      ensures newHighlightWord == ""
    {
      newHighlightWord := "";
    }

    /** Typing into the input. */
    method SetNewHighlightWord(v: string)
      modifies this
      ensures newHighlightWord == v
    {
      newHighlightWord := v;
    }

    /** The plus button or Enter: send the patch, if any, and clear the input after a send. */
    method AddHighlightedWord(s: HeadlineSettings) returns (sent: Option<Patch>)
      modifies this
      ensures sent == AddHighlight(s, old(newHighlightWord))
      ensures sent.Some? ==> newHighlightWord == ""
      ensures sent.None? ==> newHighlightWord == old(newHighlightWord)
    {
      sent := AddHighlight(s, newHighlightWord);
      if sent.Some? {
        newHighlightWord := "";
      }
    }
  }
}
