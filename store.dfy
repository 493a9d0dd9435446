/**
 * The settings store of the application: the live configuration, the list
 * of saved snapshots, and the handlers that change them (`App`).
 */
module Store {
  import opened Numbers
  import opened Strings
  import opened Types
  import opened Defaults

  // ---------------------------------------------------------------------
  // Field-wise view of the record and the patch merge `{ ...prev, ...patch }`
  // ---------------------------------------------------------------------

  /** The value of one field, whatever its type. */
  datatype Value =
    | VText(s: string) | VNum(n: Num) | VBool(b: bool) | VAlign(a: TextAlign) | VDirection(d: GradientDirection)
    | VColors(cs: seq<string>) | VAnimation(t: AnimationType) | VRules(rs: seq<HighlightRule>)

  /** The patch's value when it carries one, the old value otherwise. */
  function Pick<T>(o: Option<T>, d: T): (r: T)
    ensures o.Some? ==> r == o.value
    ensures o.None? ==> r == d
  {
    if o.Some? then o.value else d
  }

  /** The fields of the configuration record. */
  datatype Field =
    | TextField | FontSizeField | FontFamilyField | FontWeightField | TextAlignField | ColorField
    | BackgroundColorField | PaddingField | MarginField | LetterSpacingField | LineHeightField
    | GradientEnabledField | GradientDirectionField | GradientColorsField | TextShadowField
    | TextOutlineField | OutlineColorField | ShadowColorField | ShadowBlurField | ShadowOffsetXField
    | ShadowOffsetYField | AnimationTypeField | AnimationDurationField | AnimationDelayField
    | HighlightedWordsField

  /** `settings[f]`. */
  function Read(s: HeadlineSettings, f: Field): Value {
    match f
    case TextField => VText(s.text)
    case FontSizeField => VNum(s.fontSize)
    case FontFamilyField => VText(s.fontFamily)
    case FontWeightField => VNum(s.fontWeight)
    case TextAlignField => VAlign(s.textAlign)
    case ColorField => VText(s.color)
    case BackgroundColorField => VText(s.backgroundColor)
    case PaddingField => VNum(s.padding)
    case MarginField => VNum(s.margin)
    case LetterSpacingField => VNum(s.letterSpacing)
    case LineHeightField => VNum(s.lineHeight)
    case GradientEnabledField => VBool(s.gradientEnabled)
    case GradientDirectionField => VDirection(s.gradientDirection)
    case GradientColorsField => VColors(s.gradientColors)
    case TextShadowField => VBool(s.textShadow)
    case TextOutlineField => VBool(s.textOutline)
    case OutlineColorField => VText(s.outlineColor)
    case ShadowColorField => VText(s.shadowColor)
    case ShadowBlurField => VNum(s.shadowBlur)
    case ShadowOffsetXField => VNum(s.shadowOffsetX)
    case ShadowOffsetYField => VNum(s.shadowOffsetY)
    case AnimationTypeField => VAnimation(s.animationType)
    case AnimationDurationField => VNum(s.animationDuration)
    case AnimationDelayField => VNum(s.animationDelay)
    case HighlightedWordsField => VRules(s.highlightedWords)
  }

  /** `patch[f]`, None when the patch does not carry the field. */
  function PatchValue(p: Patch, f: Field): Option<Value> {
    match f
    case TextField => if p.text.Some? then Some(VText(p.text.value)) else None
    case FontSizeField => if p.fontSize.Some? then Some(VNum(p.fontSize.value)) else None
    case FontFamilyField => if p.fontFamily.Some? then Some(VText(p.fontFamily.value)) else None
    case FontWeightField => if p.fontWeight.Some? then Some(VNum(p.fontWeight.value)) else None
    case TextAlignField => if p.textAlign.Some? then Some(VAlign(p.textAlign.value)) else None
    case ColorField => if p.color.Some? then Some(VText(p.color.value)) else None
    case BackgroundColorField => if p.backgroundColor.Some? then Some(VText(p.backgroundColor.value)) else None
    case PaddingField => if p.padding.Some? then Some(VNum(p.padding.value)) else None
    case MarginField => if p.margin.Some? then Some(VNum(p.margin.value)) else None
    case LetterSpacingField => if p.letterSpacing.Some? then Some(VNum(p.letterSpacing.value)) else None
    case LineHeightField => if p.lineHeight.Some? then Some(VNum(p.lineHeight.value)) else None
    case GradientEnabledField => if p.gradientEnabled.Some? then Some(VBool(p.gradientEnabled.value)) else None
    case GradientDirectionField => if p.gradientDirection.Some? then Some(VDirection(p.gradientDirection.value)) else None
    case GradientColorsField => if p.gradientColors.Some? then Some(VColors(p.gradientColors.value)) else None
    case TextShadowField => if p.textShadow.Some? then Some(VBool(p.textShadow.value)) else None
    case TextOutlineField => if p.textOutline.Some? then Some(VBool(p.textOutline.value)) else None
    case OutlineColorField => if p.outlineColor.Some? then Some(VText(p.outlineColor.value)) else None
    case ShadowColorField => if p.shadowColor.Some? then Some(VText(p.shadowColor.value)) else None
    case ShadowBlurField => if p.shadowBlur.Some? then Some(VNum(p.shadowBlur.value)) else None
    case ShadowOffsetXField => if p.shadowOffsetX.Some? then Some(VNum(p.shadowOffsetX.value)) else None
    case ShadowOffsetYField => if p.shadowOffsetY.Some? then Some(VNum(p.shadowOffsetY.value)) else None
    case AnimationTypeField => if p.animationType.Some? then Some(VAnimation(p.animationType.value)) else None
    case AnimationDurationField => if p.animationDuration.Some? then Some(VNum(p.animationDuration.value)) else None
    case AnimationDelayField => if p.animationDelay.Some? then Some(VNum(p.animationDelay.value)) else None
    case HighlightedWordsField => if p.highlightedWords.Some? then Some(VRules(p.highlightedWords.value)) else None
  }

  /** `{ ...s, ...p }`. */
  function Merge(s: HeadlineSettings, p: Patch): HeadlineSettings {
    HeadlineSettings(
      text := Pick(p.text, s.text),
      fontSize := Pick(p.fontSize, s.fontSize),
      fontFamily := Pick(p.fontFamily, s.fontFamily),
      fontWeight := Pick(p.fontWeight, s.fontWeight),
      textAlign := Pick(p.textAlign, s.textAlign),
      color := Pick(p.color, s.color),
      backgroundColor := Pick(p.backgroundColor, s.backgroundColor),
      padding := Pick(p.padding, s.padding),
      margin := Pick(p.margin, s.margin),
      letterSpacing := Pick(p.letterSpacing, s.letterSpacing),
      lineHeight := Pick(p.lineHeight, s.lineHeight),
      gradientEnabled := Pick(p.gradientEnabled, s.gradientEnabled),
      gradientDirection := Pick(p.gradientDirection, s.gradientDirection),
      gradientColors := Pick(p.gradientColors, s.gradientColors),
      textShadow := Pick(p.textShadow, s.textShadow),
      textOutline := Pick(p.textOutline, s.textOutline),
      outlineColor := Pick(p.outlineColor, s.outlineColor),
      shadowColor := Pick(p.shadowColor, s.shadowColor),
      shadowBlur := Pick(p.shadowBlur, s.shadowBlur),
      shadowOffsetX := Pick(p.shadowOffsetX, s.shadowOffsetX),
      shadowOffsetY := Pick(p.shadowOffsetY, s.shadowOffsetY),
      animationType := Pick(p.animationType, s.animationType),
      animationDuration := Pick(p.animationDuration, s.animationDuration),
      animationDelay := Pick(p.animationDelay, s.animationDelay),
      highlightedWords := Pick(p.highlightedWords, s.highlightedWords))
  }

  /** `{ ...p, ...q }`: q's fields win. */
  function Combine(p: Patch, q: Patch): Patch {
    Patch(
      text := if q.text.Some? then q.text else p.text,
      fontSize := if q.fontSize.Some? then q.fontSize else p.fontSize,
      fontFamily := if q.fontFamily.Some? then q.fontFamily else p.fontFamily,
      fontWeight := if q.fontWeight.Some? then q.fontWeight else p.fontWeight,
      textAlign := if q.textAlign.Some? then q.textAlign else p.textAlign,
      color := if q.color.Some? then q.color else p.color,
      backgroundColor := if q.backgroundColor.Some? then q.backgroundColor else p.backgroundColor,
      padding := if q.padding.Some? then q.padding else p.padding,
      margin := if q.margin.Some? then q.margin else p.margin,
      letterSpacing := if q.letterSpacing.Some? then q.letterSpacing else p.letterSpacing,
      lineHeight := if q.lineHeight.Some? then q.lineHeight else p.lineHeight,
      gradientEnabled := if q.gradientEnabled.Some? then q.gradientEnabled else p.gradientEnabled,
      gradientDirection := if q.gradientDirection.Some? then q.gradientDirection else p.gradientDirection,
      gradientColors := if q.gradientColors.Some? then q.gradientColors else p.gradientColors,
      textShadow := if q.textShadow.Some? then q.textShadow else p.textShadow,
      textOutline := if q.textOutline.Some? then q.textOutline else p.textOutline,
      outlineColor := if q.outlineColor.Some? then q.outlineColor else p.outlineColor,
      shadowColor := if q.shadowColor.Some? then q.shadowColor else p.shadowColor,
      shadowBlur := if q.shadowBlur.Some? then q.shadowBlur else p.shadowBlur,
      shadowOffsetX := if q.shadowOffsetX.Some? then q.shadowOffsetX else p.shadowOffsetX,
      shadowOffsetY := if q.shadowOffsetY.Some? then q.shadowOffsetY else p.shadowOffsetY,
      animationType := if q.animationType.Some? then q.animationType else p.animationType,
      animationDuration := if q.animationDuration.Some? then q.animationDuration else p.animationDuration,
      animationDelay := if q.animationDelay.Some? then q.animationDelay else p.animationDelay,
      highlightedWords := if q.highlightedWords.Some? then q.highlightedWords else p.highlightedWords)
  }

  /** Merging overwrites exactly the fields the patch carries and keeps every other field. */
  lemma MergeFields(s: HeadlineSettings, p: Patch)
    ensures forall f: Field :: PatchValue(p, f).Some? ==> Read(Merge(s, p), f) == PatchValue(p, f).value
    ensures forall f: Field :: PatchValue(p, f).None? ==> Read(Merge(s, p), f) == Read(s, f)
  {
    forall f: Field
      ensures Read(Merge(s, p), f) == if PatchValue(p, f).Some? then PatchValue(p, f).value else Read(s, f)
    {
      MergeField(s, p, f);
    }
  }

  lemma MergeField(s: HeadlineSettings, p: Patch, f: Field)
    ensures Read(Merge(s, p), f) == if PatchValue(p, f).Some? then PatchValue(p, f).value else Read(s, f)
  {
  }

  /** The empty patch carries no field. */
  lemma EmptyPatchCarriesNothing()
    ensures forall f: Field :: PatchValue(EmptyPatch, f).None?
  {
  }

  /** Merging `{}` changes nothing. */
  lemma MergeEmpty(s: HeadlineSettings)
    ensures Merge(s, EmptyPatch) == s
  {
  }

  /** Two successive changes have the effect of the one combined patch. */
  lemma MergeCombine(s: HeadlineSettings, p: Patch, q: Patch)
    ensures Merge(Merge(s, p), q) == Merge(s, Combine(p, q))
  {
  }

  /** Applying the same patch twice is applying it once. */
  lemma MergeIdempotent(s: HeadlineSettings, p: Patch)
    ensures Merge(Merge(s, p), p) == Merge(s, p)
  {
    MergeCombine(s, p, p);
    assert Combine(p, p) == p;
  }

  // ---------------------------------------------------------------------
  // Saved snapshots
  // ---------------------------------------------------------------------

  /** One entry of the saved list: `{ ...settings, id, name }`. */
  datatype SavedHeadline = SavedHeadline(settings: HeadlineSettings, tag: SaveTag)

  /** The name given to the snapshot saved when n snapshots already exist. */
  function SavedName(n: nat): (r: string)
    ensures |r| > 9 && r[..9] == "Headline " && r[9..] == NatToStr(n + 1)
  {
    "Headline " + NatToStr(n + 1)
  }

  /** Snapshots saved at different list lengths get different names. */
  lemma SavedNameInjective(m: nat, n: nat)
    ensures SavedName(m) == SavedName(n) ==> m == n
  {
    if SavedName(m) == SavedName(n) {
      NatToStrInjective(m + 1, n + 1);
    }
  }

  /** The i-th snapshot is called "Headline <i+1>". */
  predicate NamedInOrder(saved: seq<SavedHeadline>) {
    forall i :: 0 <= i < |saved| ==> saved[i].tag.name == SavedName(i)
  }

  /** In a list built by saving, no two snapshots share a name. */
  lemma NamesDistinct(saved: seq<SavedHeadline>, i: nat, j: nat)
    requires NamedInOrder(saved)
    requires i < j < |saved|
    ensures saved[i].tag.name != saved[j].tag.name
  {
    SavedNameInjective(i, j);
  }

  /** The store behind the editor: the live settings and the saved list. */
  class HeadlineStore {
    var settings: HeadlineSettings
    /** The `id`/`name` the live settings carry after a snapshot was loaded. */
    var tag: Option<SaveTag>
    var saved: seq<SavedHeadline>
    var showSavedList: bool

    /** Saving is the only way entries join the list. */
    ghost predicate Valid()
      reads this
    {
      NamedInOrder(saved)
    }

    /** The first visit: the default settings and no snapshots. */
    constructor ()
      ensures Valid()
      ensures settings == DefaultSettings && tag == None && saved == [] && !showSavedList
    {
      settings := DefaultSettings;
      tag := None;
      saved := [];
      showSavedList := false;
    }

    /** `handleSettingsChange`: merge the patch into the live settings. */
    method HandleSettingsChange(p: Patch)
      requires Valid()
      modifies this
      ensures Valid()
      ensures settings == Merge(old(settings), p)
      ensures tag == old(tag) && saved == old(saved) && showSavedList == old(showSavedList)
    {
      settings := Merge(settings, p);
    }

    /** `resetSettings`: the live settings become the defaults. */
    method ResetSettings()
      requires Valid()
      modifies this
      ensures Valid()
      ensures settings == DefaultSettings && tag == None
      ensures saved == old(saved) && showSavedList == old(showSavedList)
    {
      settings := DefaultSettings;
      tag := None;
    }

    /** `saveCurrentSettings`: append a copy of the live settings, named after the list length. */
    method SaveCurrentSettings(timestamp: string)
      requires Valid()
      modifies this
      ensures Valid()
      ensures saved == old(saved) + [SavedHeadline(settings, SaveTag(timestamp, SavedName(|old(saved)|)))]
      ensures settings == old(settings) && tag == old(tag) && showSavedList == old(showSavedList)
    {
      var savedSetting := SavedHeadline(settings, SaveTag(timestamp, SavedName(|saved|)));
      saved := saved + [savedSetting];
    }

    /** `loadSavedSettings`: the chosen snapshot, id and name included, replaces the live settings. */
    method LoadSavedSettings(entry: SavedHeadline)
      requires Valid()
      modifies this
      ensures Valid()
      ensures settings == entry.settings && tag == Some(entry.tag)
      ensures !showSavedList && saved == old(saved)
    {
      settings := entry.settings;
      tag := Some(entry.tag);
      showSavedList := false;
    }

    /** The folder button. */
    method ToggleSavedList()
      requires Valid()
      modifies this
      ensures Valid()
      ensures showSavedList == !old(showSavedList)
      ensures settings == old(settings) && tag == old(tag) && saved == old(saved)
    {
      showSavedList := !showSavedList;
    }
  }

  /** Saving and then loading the new entry gives back the settings that were saved, now carrying the new entry's id and name. */
  method SaveThenLoad(store: HeadlineStore, timestamp: string)
    requires store.Valid()
    modifies store
    ensures store.Valid()
    ensures store.settings == old(store.settings)
    ensures |store.saved| == |old(store.saved)| + 1
    ensures store.saved[..|old(store.saved)|] == old(store.saved)
    ensures store.tag == Some(SaveTag(timestamp, SavedName(|old(store.saved)|)))
    ensures !store.showSavedList
  {
    store.SaveCurrentSettings(timestamp);
    store.LoadSavedSettings(store.saved[|store.saved| - 1]);
  }

  // ---------------------------------------------------------------------
  // Quick stats and the saved-list entry
  // ---------------------------------------------------------------------

  /** The four figures under the preview. */
  datatype Stats = Stats(characters: nat, words: nat, fontSize: string, highlights: nat)

  /** Characters, pieces of `text.split(" ")`, `${fontSize}px` and the number of rules. */
  function QuickStats(s: HeadlineSettings): (r: Stats)
    ensures r.characters == |s.text|
    ensures r.words == Count(s.text, ' ') + 1
    ensures r.fontSize == NumToStr(s.fontSize) + "px"
    ensures r.highlights == |s.highlightedWords|
  {
    SplitFacts(s.text, ' ');
    Stats(|s.text|, |Split(s.text, ' ')|, NumToStr(s.fontSize) + "px", |s.highlightedWords|)
  }

  /** The word figure counts pieces, not words: empty text shows 1 and a doubled space adds a piece. */
  lemma WordCountExamples(s: HeadlineSettings)
    ensures s.text == "" ==> QuickStats(s).words == 1
    ensures s.text == "a  b" ==> QuickStats(s).words == 3
  {
    var t := "a  b";
    assert t[1..] == "  b" && t[1..][1..] == " b" && t[1..][1..][1..] == "b" && t[1..][1..][1..][1..] == "";
  }

  /** The two lines of a saved-list entry. */
  datatype EntryLabel = EntryLabel(title: string, detail: string)

  /** The first 30 characters of the text followed by "...", then "<font> • <size>px". */
  function SavedLabel(entry: SavedHeadline): (r: EntryLabel)
    ensures var n := Min(30, |entry.settings.text|);
      && |r.title| == n + 3
      && r.title[..n] == entry.settings.text[..n]
      && r.title[n..] == "..."
  {
    EntryLabel(Take(entry.settings.text, 30) + "...",
               entry.settings.fontFamily + " \U{2022} " + NumToStr(entry.settings.fontSize) + "px")
  }
}
