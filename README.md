# Headline widget: a Dafny model of its core

The headline widget is an editor for one styled headline. The user edits a
flat configuration record: text, typography, colours, an optional
gradient, shadow and outline, an animation type, and a list of
highlight rules. A live preview renders the headline, and an export
dialog produces the same design as JSON, CSS, HTML and React source.

This project models the logic behind that in Dafny and proves what it
promises:

- the record, its enumerations and its default value;
- the preview's style composer, highlight segmenter, typewriter reveal and
  motion selectors;
- the export generator: the CSS, HTML and React artifacts, the tabs and
  the download names;
- the control panel's edits of the gradient and highlight lists, and its
  switches;
- the application store: patch merge, reset, and save/load of named
  snapshots, plus the quick statistics.

Modules, one per file:

| file | module | models |
|---|---|---|
| numbers.dfy | `Numbers` | how a template literal writes a number (`${x}`) |
| strings.dfy | `Strings` | the string primitives the core uses: `toLowerCase`, `indexOf`, `join`, `replace`, `trim`, `split`, `slice` |
| types.dfy | `Types` | `HeadlineSettings`, its enums, the highlight rule, `Partial<HeadlineSettings>`, `ExportFormat` |
| defaults.dfy | `Defaults` | `DEFAULT_SETTINGS` |
| preview.dfy | `Preview` | `getTextStyle`, `processTextWithHighlights`, `getAnimationProps`, `getAnimationClass` |
| typewriter.dfy | `Typewriter` | the typewriter effect and its interval timer |
| export.dfy | `Export` | `generateExports`, the tab table and the download name |
| store.dfy | `Store` | `handleSettingsChange`, `resetSettings`, `saveCurrentSettings`, `loadSavedSettings`, the stats |
| controls.dfy | `Controls` | the control panel's handlers |
| scenarios.dfy | `Scenarios` | facts about the default configuration |

Two loops are modelled as imperative Dafny:

- processTextWithHighlights is a `while` loop over the rules. It updates
  the cursor and the element list, and is proved equal to the functional
  scan `Highlighted`.
- The array copy-and-assign of the two update handlers is a loop over an
  `array`.

Two stateful parts are modelled as classes with `modifies` clauses:

- the typewriter state (`displayText`, `currentIndex`, the timer);
- the store (`settings`, `savedSettings`, the `id`/`name` tag a load leaves on the live settings, and the `showSavedList` flag).

Numbers are decimal values `mantissa / 10^scale`. They are rendered the
way JavaScript writes numbers of ordinary size: the sign, the integer
digits, and the fraction without trailing zeros.

## Model

| member | source | states |
|---|---|---|
| Numbers.NatToStrRoundTrip | src/App.tsx:40 | reading the decimal digits of a count gives the count back |
| Numbers.NatToStrInjective | src/App.tsx:40 | distinct counts are written as distinct digit strings |
| Numbers.NumToStrScaleInvariant | src/components/HeadlinePreview.tsx:92-99 | a number is written the same whatever trailing zeros its representation has (1.20 and 1.2 both give "1.2") |
| Numbers.NumToStrChars | src/components/ExportModal.tsx:24-31 | a written number consists only of digits, a sign and a decimal point |
| Strings.Lower | src/components/HeadlinePreview.tsx:143-145 | lower-casing keeps the length and maps each character on its own |
| Strings.IndexOf | src/components/HeadlinePreview.tsx:143-145 | `indexOf(needle, from)` is -1, or a position at or after the clamped start where the needle fits |
| Strings.IndexOfLeftmost | src/components/HeadlinePreview.tsx:143-145 | a result other than -1 is an occurrence, and there is no occurrence between the clamped start and the result; -1 means there is none at all |
| Strings.IndexOfFinds | src/components/HeadlinePreview.tsx:143-145 | conversely, the first occurrence at or after the start is the result |
| Strings.ReplaceFirst | src/components/HeadlinePreview.tsx:103-106 | `replace` with a string pattern changes nothing when the pattern does not occur, and otherwise replaces exactly its leftmost occurrence |
| Strings.Trim | src/components/ControlPanel.tsx:118-123 | the result is a slice of the input that neither starts nor ends with white space, with only white space before and after it in the input; it is empty exactly when the input is all white space |
| Strings.SplitFacts | src/App.tsx:178 | `split(" ")` gives one more piece than there are spaces, no piece holds a space, and joining the pieces with spaces gives the text back |
| Strings.Take | src/App.tsx:136 | `slice(0, n)` is the prefix of length min(n, length) |
| Types.OrElse | src/components/HeadlinePreview.tsx:161-163 | `o \|\| d` is o when o is a non-empty string, and d when it is absent or empty |
| Types.TextAlignToken | src/types/index.ts:6 | the alignment is one of left, center, right |
| Types.DirectionToken | src/types/index.ts:16 | every gradient direction token begins with "to-" |
| Types.AnimationToken | src/types/index.ts:29 | seven animation tokens; "none" and "typewriter" each name exactly one type |
| Types.HighlightStyleToken | src/types/index.ts:36 | a rule's style is one of five tokens |
| Preview.DirectionCssReplaces | src/components/HeadlinePreview.tsx:103-106 | the CSS direction keyword ("to " and the token after its "to-") is what replacing the first "to-" of the token with "to " gives |
| Preview.PreviewStyle | src/components/HeadlinePreview.tsx:90-131 | the typography is passed through with units; there is a plain colour exactly when the gradient is off, and a gradient fill, clip, transparent fill and 200% size exactly when it is on; a background colour exactly when it is non-empty and not "transparent"; a shadow "Xpx Ypx Bpx C" exactly when the shadow is on; an outline "2px C" exactly when the outline is on |
| Preview.GetTextStyle | src/components/HeadlinePreview.tsx:90-131 | building the record field by field gives `PreviewStyle` |
| Preview.SpanStyle | src/components/HeadlinePreview.tsx:157-184 | the style of a highlighted word: each of the five styles with its defaults (#ffeb3b/#000, the headline colour for underline, #e3f2fd with padding and radius, colour only when given for bold and italic); the background style never sets a colour |
| Preview.Find | src/components/HeadlinePreview.tsx:143-145 | the case-insensitive search is -1, or a position at or after the cursor where the word fits |
| Preview.FindHit | src/components/HeadlinePreview.tsx:142-146 | a hit is a case-insensitive occurrence, and none occurs between the cursor and it |
| Preview.FindMiss | src/components/HeadlinePreview.tsx:142-146 | a miss means the word does not occur at or after the cursor |
| Preview.Step | src/components/HeadlinePreview.tsx:142-193 | one rule: the cursor never moves back or past the end; a miss changes nothing; a hit moves the cursor just past the word |
| Preview.StepHit | src/components/HeadlinePreview.tsx:143-192 | on a hit at p, the lower-cased text holds the lower-cased word at p and nowhere between the cursor and p; the skipped text (if any) is emitted as a plain segment, then the original-case text at p as a styled segment, and the cursor moves past it |
| Preview.Scan | src/components/HeadlinePreview.tsx:140-194 | the cursor after all rules stays within the text |
| Preview.ScanCovers | src/components/HeadlinePreview.tsx:140-194 | the segments emitted so far spell the text up to the cursor, and no plain segment is empty |
| Preview.StepCovers | src/components/HeadlinePreview.tsx:146-192 | one rule keeps that invariant |
| Preview.HighlightedCovers | src/components/HeadlinePreview.tsx:133-204 | concatenating the segments in order gives back the text, whatever the rules |
| Preview.NoRulesOnePlainSegment | src/components/HeadlinePreview.tsx:134-136 | with no rules the output is one plain segment holding the whole text |
| Preview.OneRuleMiss | src/components/HeadlinePreview.tsx:142-201 | a single rule that misses leaves one plain segment, or none for an empty text |
| Preview.OneRuleHit | src/components/HeadlinePreview.tsx:142-201 | a single rule that hits splits the text into the part before, the styled match and the part after |
| Preview.EmptyTextNoSegments | src/components/HeadlinePreview.tsx:140-201 | with rules whose words are non-empty, an empty text yields no segment |
| Preview.ScanExtend | src/components/HeadlinePreview.tsx:142-194 | processing one more rule is one more step |
| Preview.ProcessTextWithHighlights | src/components/HeadlinePreview.tsx:133-204 | the loop over the rules computes `Highlighted`, so its segments spell the text |
| Preview.PreviewContent | src/components/HeadlinePreview.tsx:224-231 | typewriter mode shows the raw text without highlights; every other mode shows segments that spell the shown text |
| Preview.GetAnimationProps | src/components/HeadlinePreview.tsx:39-79 | opacity always goes 0 to 1 with the configured duration and delay; fade-in moves y 20 to 0, slide-up 50 to 0, and neither has a transition of its own on the target; bounce has y keyframes 0, -10, 0 repeating forever with repeat delay 2; the other types have no y |
| Preview.GetAnimationClass | src/components/HeadlinePreview.tsx:206-215 | "animate-glow" for glow, "animate-shimmer shimmer-effect" for shimmer, and empty exactly for the others |
| Typewriter.TickStep | src/components/HeadlinePreview.tsx:23-31 | below the end, a tick reveals one more character and advances the position; at the end it stops the timer and changes nothing else; a stopped timer does nothing |
| Typewriter.RevealProgress | src/components/HeadlinePreview.tsx:19-32 | after k ticks, for k up to the length, the first k characters (Unicode scalar values) are shown at position k |
| Typewriter.RevealStops | src/components/HeadlinePreview.tsx:25-30 | any tick past the end leaves the whole text shown with the timer stopped |
| Typewriter.EffectiveTicks | src/components/HeadlinePreview.tsx:23-31 | tick k+1 changes what is shown exactly when k is less than the length, so exactly length ticks are effective, the length counted in Unicode scalar values |
| Typewriter.TypewriterPreview.Mount | src/components/HeadlinePreview.tsx:15-37 | mounting runs the effect: typewriter mode starts at ""/0 with the timer on; other modes show the whole text |
| Typewriter.TypewriterPreview.Render | src/components/HeadlinePreview.tsx:19-37 | a change of text or animation type restarts the reveal (typewriter mode) or shows the whole text with the position kept; no change, no effect |
| Typewriter.TypewriterPreview.Tick | src/components/HeadlinePreview.tsx:23-31 | one firing of the timer is `TickStep`, and the shown text stays a prefix of the text |
| Typewriter.TypewriterPreview.Unmount | src/components/HeadlinePreview.tsx:33 | the cleanup clears the timer |
| Typewriter.TypewriterPreview.Shown | src/components/HeadlinePreview.tsx:224-231 | typewriter mode shows the revealed prefix; other modes show segments spelling the whole text |
| Export.CssStyle | src/components/ExportModal.tsx:22-57 | the exported declarations: a colour exactly when the gradient is off, a gradient fill, clip and transparent fill exactly when it is on, a background colour exactly when it is not "transparent", shadow and outline exactly when switched on |
| Export.CssMatchesPreview | src/components/ExportModal.tsx:32-57 | the export makes the same gradient, colour, shadow and outline decisions as the preview; it differs only in the quoted font family, the missing background size and the background test |
| Export.BackgroundConditions | src/components/ExportModal.tsx:43-47 | every background the preview paints is exported; the export has one the preview lacks exactly when the colour is the empty string |
| Export.ReactStyle | src/components/ExportModal.tsx:112-146 | the React style object makes the same conditional decisions |
| Export.ReactMatchesCss | src/components/ExportModal.tsx:121-146 | the React style equals the CSS style except for how the font family is written |
| Export.Keyframes | src/components/ExportModal.tsx:69-94 | keyframe bodies exist only for fade-in (translateY 20px to 0), slide-up (50px to 0) and glow (text-shadow 0% to 100%) |
| Export.KeyframeLines | src/components/ExportModal.tsx:69-94 | one line per keyframe, in order |
| Export.AnimationLines | src/components/ExportModal.tsx:60-96 | the animation rule and the `@keyframes <type>` block are present exactly when the type is not none, with the animation declaration and the keyframes at fixed places |
| Export.KeyframesMatchPreview | src/components/ExportModal.tsx:69-85 | the fade-in and slide-up keyframes run between the preview's initial and final opacity and y |
| Export.CssDeclarations | src/components/ExportModal.tsx:23-57 | no more declaration lines than properties |
| Export.CssDeclarationsAppend | src/components/ExportModal.tsx:23-57 | the declarations of two runs of properties are those of the first run followed by those of the second |
| Export.CssDeclarationsOne | src/components/ExportModal.tsx:32-57 | one property gives exactly its one declaration line when set, and no line otherwise |
| Export.DeclaredOnce | src/components/ExportModal.tsx:23-57 | no property is declared with two different values |
| Export.DeclarationsInOrder | src/components/ExportModal.tsx:23-57 | of two set properties, the one earlier in template order is declared on an earlier line |
| Export.Declared | src/components/ExportModal.tsx:23-57 | the declarations hold the line "name: v;" for a property exactly when the style sets that property to v |
| Export.DeclLineInjective | src/components/ExportModal.tsx:23-57 | a declaration line determines its property name and its value |
| Export.RuleDeclaresColor | src/components/ExportModal.tsx:32-42 | the headline rule holds `color: C;` exactly when the gradient is off |
| Export.RuleDeclaresGradient | src/components/ExportModal.tsx:32-42 | the headline rule holds the linear-gradient fill exactly when the gradient is on |
| Export.RuleDeclaresTransparentFill | src/components/ExportModal.tsx:32-42 | the headline rule makes the glyph fill transparent exactly when the gradient is on |
| Export.RuleDeclaresBackgroundColor | src/components/ExportModal.tsx:43-47 | the headline rule holds `background-color: C;` exactly when C is not "transparent" |
| Export.RuleDeclaresShadow | src/components/ExportModal.tsx:48-52 | the headline rule holds `text-shadow: Xpx Ypx Bpx C;` exactly when the shadow is on |
| Export.RuleDeclaresOutline | src/components/ExportModal.tsx:53-57 | the headline rule holds `-webkit-text-stroke: 2px C;` exactly when the outline is on |
| Export.RuleBodyInDocument | src/components/ExportModal.tsx:22-58 | the stylesheet opens with the headline rule, then its declarations, then its closing brace |
| Export.CssText | src/components/ExportModal.tsx:22-97 | when the copied settings strings hold no line break, splitting the stylesheet at line breaks gives back exactly its lines |
| Export.HtmlEmbeds | src/components/ExportModal.tsx:99-105 | the HTML holds the text verbatim right after the opening tag, and the stylesheet verbatim inside the style element |
| Export.ReactInitialY | src/components/ExportModal.tsx:152-158 | the exported initial y is 50 for slide-up, 20 for fade-in, and absent otherwise |
| Export.ReactAnimateY | src/components/ExportModal.tsx:159-165 | the exported animate y is 0 for slide-up and fade-in, and absent otherwise |
| Export.ReactMotionMatchesPreview | src/components/ExportModal.tsx:152-165 | the exported motion offsets agree with the preview for every type but bounce, whose keyframes the export drops |
| Export.ReactEntryInjective | src/components/ExportModal.tsx:112-146 | a style entry line determines its key and its value |
| Export.ReactDeclared | src/components/ExportModal.tsx:112-146 | the style object holds the entry "key: v," for a property exactly when the style sets that property to v |
| Export.ReactDeclaredIn | src/components/ExportModal.tsx:112-146 | the component's style object holds a property's entry exactly when the React style sets it, and apart from the font family that is the stylesheet's value |
| Export.ReactDeclaresColor | src/components/ExportModal.tsx:121-131 | the component sets `color: 'C'` exactly when the gradient is off |
| Export.ReactDeclaresGradient | src/components/ExportModal.tsx:121-131 | the component sets the linear-gradient background exactly when the gradient is on |
| Export.ReactDeclaresBackgroundColor | src/components/ExportModal.tsx:132-136 | the component sets `backgroundColor` exactly when the colour is not "transparent" |
| Export.ReactDeclaresShadow | src/components/ExportModal.tsx:137-141 | the component sets `textShadow` exactly when the shadow is on |
| Export.ReactDeclaresOutline | src/components/ExportModal.tsx:142-146 | the component sets `WebkitTextStroke: '2px C'` exactly when the outline is on |
| Export.ReactText | src/components/ExportModal.tsx:107-176 | when the copied settings strings and the text hold no line break, splitting the component source at line breaks gives back exactly its lines |
| Export.ReactLayout | src/components/ExportModal.tsx:107-176 | the style entries follow the opening of the style object; the initial and animate props and the headline text sit at fixed lines after it |
| Export.GenerateExports | src/components/ExportModal.tsx:21-184 | json is the serialised snapshot, including the id and name a loaded snapshot carries; the CSS and the React source read back as their lines; the HTML embeds the text and the CSS |
| Export.Extension | src/components/ExportModal.tsx:210-215 | json, css and html download under their own key; react downloads as tsx |
| Export.FindTab | src/components/ExportModal.tsx:291 | `tabs.find` returns a tab with the key, or nothing when no tab has it |
| Export.FindTabByKey | src/components/ExportModal.tsx:210-215 | every tab is found by its own key |
| Export.DownloadName | src/components/ExportModal.tsx:290-292 | the download name is "headline-<key>.<extension>" |
| Export.DownloadNameInjective | src/components/ExportModal.tsx:290-292 | different tabs download under different names |
| Store.MergeFields | src/App.tsx:27-29 | merging overwrites exactly the fields the patch carries and keeps every other field |
| Store.MergeEmpty | src/App.tsx:27-29 | merging the empty patch changes nothing |
| Store.MergeCombine | src/App.tsx:27-29 | two successive changes have the effect of the combined patch, the later one winning |
| Store.MergeIdempotent | src/App.tsx:27-29 | applying the same patch twice is applying it once |
| Store.SavedName | src/App.tsx:40 | a snapshot is named "Headline " followed by the list length plus one |
| Store.SavedNameInjective | src/App.tsx:40 | different list lengths give different names |
| Store.NamesDistinct | src/App.tsx:35-43 | in a list built by saving, no two snapshots share a name |
| Store.HeadlineStore.constructor | src/App.tsx:16-23 | the first visit starts from the defaults with no snapshots |
| Store.HeadlineStore.HandleSettingsChange | src/App.tsx:27-29 | the live settings become the merge of the patch; the saved list is unchanged |
| Store.HeadlineStore.ResetSettings | src/App.tsx:31-33 | the live settings become the defaults |
| Store.HeadlineStore.SaveCurrentSettings | src/App.tsx:35-43 | exactly one entry is appended: a copy of the live settings with the given id and the next name; the live settings and the earlier entries are unchanged |
| Store.HeadlineStore.LoadSavedSettings | src/App.tsx:45-48 | the chosen entry, with its id and name, replaces the live settings, and the list closes |
| Store.HeadlineStore.ToggleSavedList | src/App.tsx:72 | the folder button opens or closes the list and changes nothing else |
| Store.SaveThenLoad | src/App.tsx:35-48 | loading the snapshot just saved gives back the settings that were saved, with the new entry's id and name as the live tag; the earlier entries are kept and the list is closed |
| Store.QuickStats | src/App.tsx:168-199 | the character figure is the text length in Unicode scalar values; the word figure is the number of spaces plus one; the size figure is the font size in px; the highlight figure counts the rules |
| Store.WordCountExamples | src/App.tsx:178 | an empty text counts as one word, and a doubled space adds a piece |
| Store.SavedLabel | src/App.tsx:135-140 | the saved-list title is the first 30 characters (Unicode scalar values) of the text followed by "..." |
| Controls.TouchesFrame | src/components/ControlPanel.tsx:98-148 | a one-field patch changes that field of the settings and no other |
| Controls.FilterOutIndex | src/components/ControlPanel.tsx:112 | filtering out an index removes exactly that entry and keeps the order; an index out of range removes nothing |
| Controls.AssignAt | src/components/ControlPanel.tsx:105-106 | copying the list into an array and assigning one entry replaces that entry only |
| Controls.AddGradientColor | src/components/ControlPanel.tsx:98-102 | the list grows by one stop #3b82f6 at the end and the earlier stops are kept |
| Controls.UpdateGradientColor | src/components/ControlPanel.tsx:104-108 | only the stop at the index changes; the length and the other stops stay |
| Controls.RemoveGradientColor | src/components/ControlPanel.tsx:110-115 | no patch at or below two stops; otherwise exactly the stop at the index is removed, in order |
| Controls.RemoveKeepsFloor | src/components/ControlPanel.tsx:110-115 | removal never takes a list of two or more stops below two |
| Controls.AddThenRemoveLast | src/components/ControlPanel.tsx:98-115 | adding a stop and removing the new last one restores the list |
| Controls.Toggle | src/components/ControlPanel.tsx:282-285 | each switch sends a patch of its own flag only |
| Controls.ToggleFlips | src/components/ControlPanel.tsx:431-434 | a click negates its flag and leaves the other switches alone |
| Controls.ToggleTwice | src/components/ControlPanel.tsx:499-502 | two clicks restore the settings |
| Controls.AddHighlight | src/components/ControlPanel.tsx:117-132 | no patch for blank input; otherwise the rule list grows by one rule for the trimmed word, styled highlight with #ffeb3b and #000 |
| Controls.MergeRule | src/components/ControlPanel.tsx:139 | a rule update overwrites exactly the fields it carries |
| Controls.MergeRuleLaws | src/components/ControlPanel.tsx:139 | an update applied twice is applied once; the empty update changes nothing |
| Controls.UpdateHighlightedWord | src/components/ControlPanel.tsx:134-141 | only the rule at the index is merged with the update; the length and the other rules stay |
| Controls.RemoveHighlightedWord | src/components/ControlPanel.tsx:143-148 | exactly the rule at the index is removed, in order; an index out of range removes nothing |
| Controls.HighlightInput.constructor | src/components/ControlPanel.tsx:89 | the input starts empty |
| Controls.HighlightInput.SetNewHighlightWord | src/components/ControlPanel.tsx:565-567 | typing sets the input |
| Controls.HighlightInput.AddHighlightedWord | src/components/ControlPanel.tsx:117-132 | the handler sends `AddHighlight`'s patch, and clears the input exactly when a patch was sent |
| Scenarios.DefaultPreviewStyle | src/lib/common.data.ts:9-21 | the default composes to colour #1f2937 with no gradient, background, shadow or outline |
| Scenarios.DefaultFontSize | src/lib/common.data.ts:5 | the default font size composes to "48px" |
| Scenarios.DefaultExportHasNoBackground | src/lib/common.data.ts:10 | the default's transparent background is not exported |
| Scenarios.DefaultOnePlainSegment | src/lib/common.data.ts:32 | the default has no rules, so the preview shows one plain segment |
| Scenarios.DefaultCssFadesIn | src/lib/common.data.ts:28 | the default stylesheet ends with the fade-in keyframes |
| Scenarios.DefaultGradientAtFloor | src/lib/common.data.ts:18 | the default has exactly two gradient stops, so a removal is refused |

## Left out

- Clipboard copy, file download and the "copied" timeout are browser I/O (`navigator.clipboard`, `Blob`, the DOM, `setTimeout`).
- Export.GenerateExports: `JSON.stringify` is a library routine. The json artifact is the result of a serialiser passed in as a parameter. It is given the settings and the `id`/`name` tag the live object carries after a load. No round trip through JSON is claimed.
- The real `setInterval`/`clearInterval` and React's effect scheduling are not modelled. Timer firings are explicit `Tick` calls, and the effect re-run is `Render`.
- The preview's first render, before its effect has run, is not modelled. At that point `displayText` is still "" outside typewriter mode.
- framer-motion, JSX trees and Tailwind classes are not rendered. Motion props, segments and style records are data.
- `useLocalStorage` and `useTheme` are not part of this model. Persistence across visits and the theme switch are left out, and the store starts from the defaults.
- The ColorPicker widget and the accordion rendering of the control panel are UI only. So are the picker's displayed fallback values (`backgroundColor || "#ffeb3b"`, `color || settings.color`).
- The simple one-field setters are covered by `Store.MergeFields` and are not modelled one by one. These are the sliders, selects and text inputs that send `{ field: value }`.
- `Number(value)` for the font weight select is not modelled, because string-to-number parsing is outside the core.
- Numbers are exact decimals. IEEE rounding and exponent notation for very large or very small values are not modelled.
- Strings: a Dafny `string` is a sequence of Unicode scalar values, while JavaScript's `length`, `slice` and `indexOf` count UTF-16 code units. Lengths, indices and slices agree with the source only on text with no character above U+FFFF. A character such as U+1F600 counts 1 here and 2 in the source.
- Store.QuickStats: the character figure counts Unicode scalar values, not UTF-16 code units, so it is smaller than the source's on text with characters above U+FFFF.
- Typewriter.TickStep: a tick reveals one Unicode scalar value. The source reveals one UTF-16 code unit and can show a lone high surrogate partway through a character above U+FFFF.
- Typewriter.EffectiveTicks: the number of effective ticks is the length in Unicode scalar values. The source needs one tick per UTF-16 code unit.
- Store.SavedLabel: the 30-character cut counts Unicode scalar values. The source cuts at 30 UTF-16 code units, possibly inside a surrogate pair.
- Strings.Lower: `toLowerCase` is modelled on ASCII letters only, which keeps the length. Full Unicode case mapping can change lengths.
- `getGradientClass` is dead code (never called), so it is not modelled.
- The snapshot `id` from `new Date().toISOString()` is a parameter of `SaveCurrentSettings`.
- Export.CssDocument: the blank and indentation-only lines the template literals leave around empty conditionals, and `.trim()`, are not reproduced byte for byte. The artifacts are modelled as their sequence of lines (declarations, rules, keyframes).
- Export.CssText: the split-into-lines property needs the copied strings (font family, colours, gradient stops) to hold no line break. Such a string would add lines.
- Export.ReactDocument: the React source is stated line by line. The style entries and the motion props are stated, but the JSX around them is fixed text and no property is claimed of it.
- Controls.UpdateGradientColor and Controls.UpdateHighlightedWord require an index within the list. The panel only passes indices of rendered entries. An out-of-range JavaScript array assignment would extend the array with holes, and that is not modelled.
- Store.HeadlineStore: the `id`/`name` that a load copies into the live settings are kept as a separate optional tag. A later merge keeps the tag and a reset drops it, as the spread does. The export receives the tag beside the settings, so its json can carry both keys.
- Export.ReactText: the split-into-lines property also needs the headline text to hold no line break, since the component source copies it onto one line.
