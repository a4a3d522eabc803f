# Zone editor of the GPS alert configuration

This project models the zone-editing service of the GPS alert configuration
page. On that page a carer draws up to ten circular zones on a map, names
each one in a small text input, and saves them as GeoJSON. The same service
can replay a person's position history on a timeline. Two generations of the
service exist:
- `app/js/services/map-service.js`, the current one, with history playback and modes;
- `leaflet-draw-service.js`, the earlier one.

Two generations of the string-table translator exist as well. The model
covers both.

The model has these modules:

- `Text`: the JavaScript string operations the service relies on:
  - `indexOf`;
  - `split` and `join`;
  - `trim`;
  - `toLowerCase`, on Basic Latin and the Latin-1 capitals (A-Z, and À-Þ except ×);
  - `String(n)`.
- `Labels`: the label validator:
  - `_getDuplicatedLabels`, which reports each lowercased value seen twice, in the order of its second occurrence;
  - `_checkLabelsAreValid`;
  - the marks `_toggleLabelsValidStyles` puts on the inputs;
  - both versions of `_guessZoneIndex`.
- `Templates`: the body of `translateString`, which replaces `{{key}}` once per params entry.
  It yields a string, `undefined` when the key is missing, or a `TypeError` when a missing key meets params.
- `Translation`: the newer translator, with 8 languages and 20 keys.
  It has its exact tables, the fallback to French, and a `TranslationService` class whose language is fixed at construction.
- `AppTranslation`: the older translator, with 6 languages and 10 keys.
- `Popup`: `_createPopUpContent` of both copies, line by line, and the label recovery of `_recoverStateBeforeDeletion`.
  It includes the exact `toFixed` radius text.
  The recovery round trip is proved.
- `Export`: the radius repair of `exportGeoJSON`, with its `matchingLayer` that is never reset.
- `Timeline`: the bucketing loop and the slider of `initTimeLine`.
- `Editing`: the state of the editor as a value, and every handler as a function of that state:
  - created, deleted, edited, resize;
  - label commit;
  - tooltip regeneration;
  - recovery;
  - import;
  - export;
  - the `_emitEvent` gate.

  The main properties are proved here: the gate, import suppression, the maximum count, and the stability of the export.
- `ZoneEditor`: the class `MapService`. Its fields are updated in place by methods that mirror the source's methods.
  Each method's `ensures` ties the new state to the `Editing` functions.
  Loops appear where the source loops:
  - the label check;
  - restyling;
  - tooltips;
  - recovery;
  - import;
  - export.

Conventions of the model:

- The shapes group is `seq<Zone>`, in insertion order. A zone holds its Leaflet id, its centre and radius, and its `feature.properties`.
  It also holds the arguments its popup was last built from and its label input, if one is in the page.
  A flag records whether the layer is still on the map.
- The property `label` of the source is the field `zoneLabel`, because `label` is a Dafny keyword.
- The label inputs of the page are the zones' inputs in zone order (`Inputs`). `querySelectorAll` returns them in document order, the order their popups were added; a zone recovered by `_recoverStateBeforeDeletion` has its input moved last. The duplicate check, the marks and the index guess do not depend on that order, so the model keeps zone order.
- Leaflet ids are stamps from a counter (`nextId`) that grows by one per created layer.
- `JSON.parse` and `JSON.stringify` are parameters of the class.
  The parser returns `None` for text that does not parse. Its result is the list of features with the fields the import reads.
- `notify` is a log of `Notice` values, and `document.dispatchEvent` is a log of event names.
  The circle tool of the draw control is a boolean.
- The engine's rendering of a number inside the inline handler (`${distance}`) is a parameter (`numberText`).
- The handlers of the current copy are modelled with the correction of the first row of "## Findings" applied: the default label is `translateString('ZONE', { index })`.
  As written (`'zone'`), every circle created without a truthy label of its own throws in `_initPopup`; `Editing.DefaultLabelAsWritten` models that and `Editing.DefaultLabelAsWrittenThrows` proves it.
  The earlier copy is modelled as written, including its `_guessZoneIndex`.

## Model

| member | source | states |
|---|---|---|
| Text.IndexOf | app/js/services/map-service.js:526 | the first index where the pattern occurs, -1 exactly when it does not occur |
| Text.Split | src/js/services/translation-service.js:237 | `split` yields at least one part |
| Text.JoinSplit | src/js/services/translation-service.js:237 | joining the parts of a split with the separator gives the string back |
| Text.SplitWithoutOccurrence | src/js/services/translation-service.js:237 | a string without the separator splits into itself alone |
| Text.SplitPartsAvoidSeparator | src/js/services/translation-service.js:237 | no part of a split contains the separator |
| Text.SplitJoinLines | app/js/services/map-service.js:524-525 | splitting newline-joined lines on `\n` gives the lines back when none holds a newline |
| Text.SplitJoinLeadingLines | app/js/services/map-service.js:524-525 | the first k+1 lines come back whole when they hold no newline, whatever the later lines hold |
| Text.TrimStart | app/js/services/map-service.js:527 | the result is a suffix of the input that does not start with white space, and everything removed before it is white space |
| Text.TrimEnd | app/js/services/map-service.js:527 | the result is a prefix of the input that does not end with white space, and everything removed after it is white space |
| Text.TrimIndented | app/js/services/map-service.js:527 | an indented body that starts and ends with a non-blank trims to the body |
| Text.Lower | app/js/services/map-service.js:587 | lowercasing keeps the length, turns each capital into the small letter 32 code points on, keeps every other character (digits stay digits), and leaves no capital |
| Text.LowerIdempotent | app/js/services/map-service.js:591-592 | lowering twice is lowering once |
| Text.NatText | app/js/services/map-service.js:445 | the decimal text of a number is non-empty, all digits, with no leading zero |
| Text.DigitsValueOfNatText | app/js/services/map-service.js:422 | `parseInt` of the decimal text of n is n |
| Labels.Lowered | app/js/services/map-service.js:585-588 | one collected value per input, each of the input's length and holding no capital |
| Labels.FirstIndex | app/js/services/map-service.js:591 | `indexOf`: the first index holding the value, -1 exactly when it is absent |
| Labels.DuplicatesAreSecondOccurrences | app/js/services/map-service.js:584-599 | the reduce lists exactly the lowercased values at their second occurrence |
| Labels.ReducePrefixIsSecondOccurrences | app/js/services/map-service.js:590-596 | after each step of the reduce the accumulator is the second occurrences of the prefix visited |
| Labels.SecondOccurrencesMembers | app/js/services/map-service.js:590-596 | a value is reported exactly when it occurs at least twice |
| Labels.TwiceIffTwoIndices | app/js/services/map-service.js:590-596 | occurring twice means being held at two distinct indices |
| Labels.SecondOccurrencesDistinct | app/js/services/map-service.js:590-596 | no value is reported twice |
| Labels.DuplicatesSpec | leaflet-draw-service.js:407-422 | x is reported iff two distinct inputs lowercase to x; the report has no repeats |
| Labels.LoweredExample | app/js/services/map-service.js:585-588 | the lowercased values of "Zone A", "zone a", "Zone B" |
| Labels.SecondOccurrencesExample | app/js/services/map-service.js:590-596 | the second occurrences of that example |
| Labels.DuplicatesExample | app/js/services/map-service.js:584-599 | "Zone A" and "zone a" collide and "Zone B" does not |
| Labels.LabelsAreValidIff | app/js/services/map-service.js:601-614 | the labels are valid iff none is empty and no two are equal once lowercased |
| Labels.LengthIsNotChecked | app/js/services/map-service.js:601-614 | a twenty-character label passes the check: only the input's `maxlength` limits length |
| Labels.InvalidMarks | leaflet-draw-service.js:439-455 | all marks are cleared when valid; otherwise an input is marked iff it is empty or collides with another once lowercased |
| Labels.DigitRunLength | app/js/services/map-service.js:420 | the length of the run of digits at the start of the text |
| Labels.FirstDigitAt | app/js/services/map-service.js:420 | the index of the first digit: no digit before it, a digit at it unless it is the end |
| Labels.FirstDigitRun | app/js/services/map-service.js:420 | `match(/\d+/)` returns nothing exactly when there is no digit; otherwise the run of digits that starts at the first digit and stops before the next non-digit or at the end |
| Labels.ZoneNumbers | app/js/services/map-service.js:419-424 | at most one number is read per label |
| Labels.ZoneNumbersMembers | app/js/services/map-service.js:419-424 | a number is read exactly when some label yields it |
| Labels.Min | app/js/services/map-service.js:429 | `Math.min` returns an element no larger than any other |
| Labels.Max | app/js/services/map-service.js:429 | `Math.max` returns an element no smaller than any other |
| Labels.FirstMissing | app/js/services/map-service.js:430-432 | the first number in the range that is not in the list, or none when every number is in it |
| Labels.LargestNumber | app/js/services/map-service.js:426-429 | the maximum of the numbers read, with the 0 seed |
| Labels.GuessZoneIndexSpec | app/js/services/map-service.js:416-439 | the smallest k with 1 <= k < max not read from any label, otherwise the shape count |
| Labels.GuessZoneIndexLegacySpec | leaflet-draw-service.js:237-257 | the earlier guess: strictly between min and max, otherwise the shape count; it fails when no label has a digit |
| Labels.LegacyGuessFailsWithoutNumbers | leaflet-draw-service.js:247-248 | with no numbered label the earlier guess throws |
| Labels.GuessOnEmptyMap | app/js/services/map-service.js:426-438 | the seeded guess names the first zone of an empty map 1 |
| Templates.Translate | src/js/services/translation-service.js:232-242 | throws iff the key is missing and params are non-empty; `undefined` iff the key is missing and there are no params |
| Templates.TranslateIn | src/js/services/translation-service.js:233-241 | the loop over the params entries computes `Translate` |
| Templates.SubstituteReplacesEveryOccurrence | src/js/services/translation-service.js:237 | the result is the pieces between occurrences of the marker, joined by the value |
| Templates.SubstituteWithoutPlaceholder | src/js/services/translation-service.js:237 | a string without the marker comes back unchanged |
| Templates.SubstitutePlaceholder | src/js/services/translation-service.js:237 | the bare marker becomes exactly the value |
| Templates.SubstituteTrailingPlaceholder | src/js/services/translation-service.js:237 | a template that ends in the marker gets the value in its place |
| Templates.ApplyAllWithoutPlaceholders | src/js/services/translation-service.js:235-239 | a template that mentions none of the params' markers is returned unchanged |
| Templates.ChainedParams | src/js/services/translation-service.js:235-239 | params apply in order: a value that holds a later marker is substituted again |
| Templates.ParamsOrderMatters | src/js/services/translation-service.js:235-239 | in the other order the later marker survives |
| Translation.LanguageOrDefault | src/js/services/translation-service.js:209-213 | a supported language is kept, anything else becomes `fr` |
| Translation.KeyOf | src/js/services/translation-service.js:10-206 | a name maps to a key only when it is that key's exact spelling |
| Translation.KeyOfNames | src/js/services/translation-service.js:10-206 | exactly the twenty key names name a key |
| Translation.Lookup | src/js/services/translation-service.js:233 | every language's table defines exactly the twenty keys (case-sensitive) |
| Translation.ZonePrefix | src/js/services/translation-service.js:26 | the text before `{{index}}` holds no brace, newline or quote |
| Translation.TranslationService.constructor | src/js/services/translation-service.js:209-213 | the service keeps the fallback language |
| Translation.TranslationService.TranslateString | src/js/services/translation-service.js:232-242 | returns the lookup in the service's language with the params applied |
| Translation.LanguageFallback | src/js/services/translation-service.js:244-246 | validity is membership in fr, en, zh, es, sk, cs, fi, de; none or `it` gives `fr` |
| Translation.LookupWithoutParams | src/js/services/translation-service.js:232-234 | without params (or with empty ones) the exact entry, or `undefined` for a missing key |
| Translation.LowerCaseKeysAreMissing | app/js/services/map-service.js:445 | `translateString('zone', params)` throws; the lower-case failure and no-data keys give `undefined` |
| Translation.ZoneLabel | src/js/services/translation-service.js:26 | `ZONE` with an index gives the language's zone word followed by the index |
| AppTranslation.LanguageOrDefault | app/js/services/translation-service.js:80-85 | a supported language is kept, anything else becomes `fr` |
| AppTranslation.KeyOf | app/js/services/translation-service.js:5-78 | a name maps to a key only when it is that key's exact spelling |
| AppTranslation.KeyOfNames | app/js/services/translation-service.js:5-78 | exactly the ten key names name a key |
| AppTranslation.Lookup | app/js/services/translation-service.js:101 | every language's table defines exactly the ten keys |
| AppTranslation.ZonePrefix | app/js/services/translation-service.js:9 | the text before `{{index}}` holds no brace, newline or quote |
| AppTranslation.TranslationService.constructor | app/js/services/translation-service.js:80-85 | the service keeps the fallback language |
| AppTranslation.TranslationService.TranslateString | app/js/services/translation-service.js:100-110 | returns the lookup in the service's language with the params applied |
| AppTranslation.LanguageFallback | app/js/services/translation-service.js:112-114 | validity is membership in en, fr, es, sk, cs, zh; anything else gives `fr` |
| AppTranslation.LookupWithoutParams | app/js/services/translation-service.js:101-109 | without params the exact entry, or `undefined` for a missing key |
| AppTranslation.LowerCaseKeysAreMissing | app/js/services/translation-service.js:101-106 | a lower-case key is missing: with params it throws, without them it is `undefined` |
| AppTranslation.ZoneLabel | app/js/services/translation-service.js:9 | `ZONE` with an index gives the language's zone word followed by the index |
| Popup.RoundHalfUp | app/js/services/map-service.js:561-566 | the nearest integer, the larger on a tie, as `toFixed` rounds |
| Popup.PadZeros | app/js/services/map-service.js:561-566 | the text is as long as the width or its own length, whichever is larger; it ends with the digits, and every character before them is `0` |
| Popup.RadiusTextUnits | app/js/services/map-service.js:561-566 | below 1000 m the metres rounded with no decimals, otherwise the kilometres with two decimals |
| Popup.RadiusTextMetres | app/js/services/map-service.js:561-566 | 450 m reads "450 m" |
| Popup.RadiusTextKilometres | app/js/services/map-service.js:561-566 | 1500 m reads "1.50 km" |
| Popup.RadiusTextRoundsAfterUnit | app/js/services/map-service.js:561-566 | the unit is chosen before rounding: 999.6 m reads "1000 m" |
| Popup.NatTexts | app/js/services/map-service.js:561-566 | the decimal texts the radius examples use |
| Popup.OpeningLines | app/js/services/map-service.js:568-573 | the opening of the input element has six lines, the last the value line |
| Popup.ClosingLines | app/js/services/map-service.js:574-581 | the rest of the element has eight lines |
| Popup.PopupLines | app/js/services/map-service.js:553-582 | the popup has fourteen lines |
| Popup.FirstContaining | app/js/services/map-service.js:526 | `filter(...)[0]`: the first line containing the marker, or none when no line does |
| Popup.ReplaceFirst | app/js/services/map-service.js:528 | a string without the pattern comes back unchanged; otherwise the leftmost occurrence, and only it, is replaced by the value |
| Popup.StripTrailingQuote | app/js/services/map-service.js:529 | exactly one final double quote is dropped, if there is one |
| Popup.ValueLine | app/js/services/map-service.js:573 | the value line contains the marker `value="` |
| Popup.RecoverValueLine | app/js/services/map-service.js:527-529 | trimming, unmarking and unquoting the value line gives the label back |
| Popup.TrimValueLine | app/js/services/map-service.js:527 | trimming the value line leaves the attribute itself |
| Popup.UnmarkValue | app/js/services/map-service.js:528 | removing the marker leaves the label and its closing quote |
| Popup.LinesWithoutMarker | app/js/services/map-service.js:526 | a line without a `v` cannot contain the marker |
| Popup.RecoverFromLines | app/js/services/map-service.js:524-529 | text whose first marked line is a value line gives back that line's label |
| Popup.OpeningLinesFree | app/js/services/map-service.js:568-572 | the popup's first five lines hold no newline and no `v` |
| Popup.RecoverLabelRoundTrip | leaflet-draw-service.js:340-362 | recovering from `_createPopUpContent(id, label, distance)` gives back the label when it has no newline (either copy) |
| Popup.FirstFromPrefix | app/js/services/map-service.js:526 | when line k is the first to contain the marker, the filter picks it |
| Popup.RecoverFromTextWithoutMarker | leaflet-draw-service.js:340-362 | text without any `v` gives no label, so the layer is removed |
| Export.FirstMatch | app/js/services/map-service.js:170-183 | the first layer whose centre equals the feature's, or none when no layer's does |
| Export.MatchAfter | app/js/services/map-service.js:164-188 | the value of `matchingLayer` after a feature is a layer of the group |
| Export.WithRadius | app/js/services/map-service.js:185-187 | a feature takes the matching layer's radius and keeps everything else |
| Export.RepairRadii | app/js/services/map-service.js:164-188 | the nested loop computes `Repaired` |
| Export.FirstMatchAt | app/js/services/map-service.js:170-183 | a layer at the centre with none before it is the first match |
| Export.NoMatch | app/js/services/map-service.js:170-183 | no layer at the centre means no match |
| Export.RepairedMatched | leaflet-draw-service.js:128-159 | a feature with a layer at its centre gets the radius of the first such layer |
| Export.UnmatchedInherits | leaflet-draw-service.js:128-159 | an unmatched feature keeps its radius before any match and inherits the previous match's radius after one |
| Export.RepairKeepsFeatures | leaflet-draw-service.js:128-159 | the count, order, centres, labels and draw types of the features are unchanged |
| Export.RepairFromOwnLayers | app/js/services/map-service.js:160-191 | features made from the layers are all matched, by the first layer sharing the centre |
| Export.MatchNoLaterThan | app/js/services/map-service.js:170-183 | a layer at the centre bounds the first match |
| Export.RepairDistinctCentres | app/js/services/map-service.js:160-191 | with distinct centres every feature takes its own layer's radius |
| Export.MatchAfterByCentres | app/js/services/map-service.js:164-188 | the matches depend only on the features' centres |
| Export.RepairedIdempotent | app/js/services/map-service.js:160-191 | repairing the repaired features changes nothing |
| Export.SharedCentreTakesFirst | app/js/services/map-service.js:170-183 | two circles on one centre both export the first one's radius |
| Timeline.Openers | app/js/services/map-service.js:255-279 | the opening samples are among the first n, with the first sample first |
| Timeline.BuildingOpeners | app/js/services/map-service.js:255-279 | one feature is under construction per opener, the last starting at the last opener |
| Timeline.BuildingStep | app/js/services/map-service.js:259-264 | a sample opens a feature in the loop exactly when it is an opener |
| Timeline.BuildingNext | app/js/services/map-service.js:255-279 | one turn of the loop: the first sample opens the first feature, a sample less than five minutes after the current start changes nothing, any other closes the last feature at its time and pushes a new one |
| Timeline.BuildingSkips | app/js/services/map-service.js:259-261 | a sample less than five minutes after the current start changes nothing |
| Timeline.BuildingPushes | app/js/services/map-service.js:263-278 | any other sample sets the previous end to its time and pushes a new feature |
| Timeline.BuildingStarts | app/js/services/map-service.js:266-278 | every feature under construction starts at, and sits on, its opening sample |
| Timeline.BuildingEnds | app/js/services/map-service.js:263 | every feature but the last ends at the next opener's time |
| Timeline.ClosedBuildingIsMoments | app/js/services/map-service.js:255-282 | closing the built features gives the reference features |
| Timeline.ClosedFeature | app/js/services/map-service.js:281-282 | each closed feature is the reference feature |
| Timeline.StartAt | app/js/services/map-service.js:266-271 | feature k starts at opener k |
| Timeline.EndAt | app/js/services/map-service.js:263 | feature k ends at opener k+1 |
| Timeline.Bucket | app/js/services/map-service.js:255-282 | the loop builds exactly the reference features |
| Timeline.Steps | app/js/services/map-service.js:291-292 | the whole hours between min and max, truncated; for a spread of 1 to 3 ms, whose hours print in exponent notation, the leading digit of the mantissa (2, 5 or 8) |
| Timeline.Earliest | app/js/services/map-service.js:252 | the earliest sample time |
| Timeline.Latest | app/js/services/map-service.js:253 | the latest sample time |
| Timeline.SliderFor | app/js/services/map-service.js:291-296 | steps are never negative and are the whole hours between min and max unless those lie 1 to 3 ms apart; duration is steps × 1000 |
| Timeline.OpenersSpaced | app/js/services/map-service.js:259-261 | each opener is at least five minutes after the previous opener, and every skipped sample is less than five minutes after the opener before it |
| Timeline.OpenerGaps | app/js/services/map-service.js:259-261 | the openers increase, each at least five minutes after the previous one |
| Timeline.SkippedNear | app/js/services/map-service.js:259-261 | a sample between an opener and the next one, or after the last, is less than five minutes after that opener |
| Timeline.MomentsShape | app/js/services/map-service.js:255-282 | the first feature starts at sample 0; starts are five minutes apart or more; each end is the next start; the last ends at its start; no more features than samples |
| Timeline.NoSamplesNoMoments | app/js/services/map-service.js:249 | no samples, no features |
| Timeline.FourSamples | app/js/services/map-service.js:255-282 | samples at 10:00, 10:02, 10:10 and 10:11 give two features, 10:00 to 10:10 and 10:10 to 10:10 |
| Timeline.EveryThreeMinutes | app/js/services/map-service.js:259 | samples every three minutes open a feature every six minutes |
| Editing.Inputs | app/js/services/map-service.js:419 | at most one input value per zone, taken in the zones' order |
| Editing.InputsAppend | app/js/services/map-service.js:419 | the inputs of two groups in sequence are the inputs of each, in sequence |
| Editing.FindZone | app/js/services/map-service.js:542-543 | the first zone with that id, or none when no zone has it |
| Editing.Styled | app/js/services/map-service.js:616-634 | the inputs keep their values and the marks become `InvalidMarks` of them; nothing else changes |
| Editing.RestyledInputs | app/js/services/map-service.js:616-634 | the input values survive the restyling |
| Editing.RestyledMarks | leaflet-draw-service.js:439-455 | the marks after restyling are `InvalidMarks` of the input values |
| Editing.DefaultLabel | app/js/services/map-service.js:443-446 | with the `ZONE` key corrected in the current copy, a default label exists exactly when the copy's guess of the index succeeds |
| Editing.WithPopup | app/js/services/map-service.js:441-463 | a zone with a popup holds an unmarked input showing its label, and is otherwise unchanged |
| Editing.InitPopup | app/js/services/map-service.js:441-463 | succeeds exactly when a label is found; only the popup and input of the zone at k change |
| Editing.GateChangesOnlyMarks | app/js/services/map-service.js:696-711 | the gate changes only the inputs' marks, and either dispatches or notifies |
| Editing.Settled | app/js/services/map-service.js:774-778 | with imports pending, the counter drops and nothing is emitted; otherwise the gate runs |
| Editing.Remaining | app/js/services/map-service.js:793-806 | the kept zones are exactly those of the group whose ids were not removed |
| Editing.LabelArea | app/js/services/map-service.js:541-551 | the commit keeps the zones and their ids in place |
| Editing.Resized | app/js/services/map-service.js:781-783 | resizing keeps the zones and their ids in place |
| Editing.ResizedCommit | app/js/services/map-service.js:781-783 | the resize handler completes iff the zone has an open input; then the zone has the new radius, its input's value as label and a popup rebuilt with that label and the new radius; nothing is dispatched and no other zone changes |
| Editing.RegenerateFrom | app/js/services/map-service.js:507-515 | regeneration keeps the zones' ids |
| Editing.RegenerateSpec | app/js/services/map-service.js:507-515 | over distinct ids, regeneration completes iff every circle on the map has an open input; then each such circle takes its input's value as label, with its popup rebuilt without distance, and every other zone stays |
| Editing.RegeneratedZone | app/js/services/map-service.js:541-546 | what committing a zone's label without distance leaves: the input's value as label, the popup rebuilt with it and the radius, the rest unchanged |
| Editing.RecoverAt | app/js/services/map-service.js:517-539 | recovery keeps the zones' ids |
| Editing.RecoverFrom | app/js/services/map-service.js:517-539 | recovery keeps the zones' ids |
| Editing.RecoverSpec | app/js/services/map-service.js:517-539 | every circle on the map without an open input is recovered as `RecoveredZone` says; every other zone stays |
| Editing.RecoverAtSpec | app/js/services/map-service.js:523-534 | the recovery of one zone changes that zone alone: it leaves the map, or has its input and popup again with the label read back from the popup |
| Editing.RepairedZones | app/js/services/map-service.js:160-191 | the repair keeps the zones and their ids in place |
| Editing.GateEmitsOnlyWhenValid | app/js/services/map-service.js:696-711 | dispatches iff no input is empty and no two collide once lowercased; otherwise notifies and disables the buttons; nothing else changes |
| Editing.PopupLabelSpec | app/js/services/map-service.js:443-446 | a truthy own label is shown; otherwise the current copy, with the key corrected to `ZONE`, shows the language's zone word with the guessed index |
| Editing.InitPopupRoundTrip | app/js/services/map-service.js:441-463 | after `_initPopup` the popup text gives back the label shown, the input holds it unmarked, and no other zone changes |
| Editing.InputsAppendClosed | app/js/services/map-service.js:419 | a zone without an input adds nothing to the page's inputs |
| Editing.CreatedFromAdded | app/js/services/map-service.js:757-779 | after adding the circle only popups and inputs change, and the handler completes iff a label is found |
| Editing.CreatedShape | leaflet-draw-service.js:542-569 | the new circle comes last with a fresh id, its centre, radius and `drawtype` `circle`; the tool is off from ten circles |
| Editing.CirclePropertiesSpec | app/js/services/map-service.js:491-499 | a circle's properties get its radius and `drawtype` `circle` and keep an imported label |
| Editing.CreatedCompletes | app/js/services/map-service.js:757-779 | the handler throws iff the circle has no truthy label and no default label can be computed |
| Editing.CreatedCounter | app/js/services/map-service.js:774-778 | a pending import is absorbed without an event; with none the gate runs; a throw changes no counter, event or notice |
| Editing.CreatedKeepsIds | app/js/services/map-service.js:757-779 | creation keeps the ids increasing and below the next one |
| Editing.DeletedSpec | app/js/services/map-service.js:793-806 | deletion keeps exactly the zones not removed, in order; fewer than ten turns the tool on |
| Editing.GateKeepsIds | app/js/services/map-service.js:696-711 | the gate keeps the ids, the counter and the tool |
| Editing.RemainingKeepsIds | app/js/services/map-service.js:793-806 | the kept zones still have increasing ids |
| Editing.EditedKeepsProperties | leaflet-draw-service.js:575-581 | an edit batch changes no properties, centres, radii or popups: the bound setter is never called |
| Editing.LabelAreaSpec | app/js/services/map-service.js:541-551 | succeeds iff the zone with the id has an input; its label becomes the input's value, the popup gives it back, and no other zone changes |
| Editing.CommitWithoutSave | app/js/services/map-service.js:548-550 | only a commit with `save` emits or notifies |
| Editing.RecoverFailureRemoves | leaflet-draw-service.js:340-362 | with no value line, or no popup, the layer is taken off the map |
| Editing.RecoverRestoresLabel | leaflet-draw-service.js:340-362 | a popup built for a label with no newline gives the label back into the properties and a fresh input |
| Editing.DefaultLabelIsTranslated | app/js/services/map-service.js:443-446 | the corrected default label is what `translateString('ZONE', { index })` returns |
| Editing.DefaultLabelAsWrittenThrows | app/js/services/map-service.js:445 | as written, the default label always throws |
| Editing.FirstCircleLabel | app/js/services/map-service.js:445 | the first circle on an empty map: it throws as written, and is named zone 1 once corrected |
| Editing.FirstCircleLabelLegacy | leaflet-draw-service.js:259-262 | the earlier copy throws for the first circle on an empty map |
| Editing.ImportOneSpec | app/js/services/map-service.js:358-389 | one feature emits nothing; a drawn circle needs the tool on, adds one zone with the feature's radius, or 10 m without one, and gives the counter back; a throw leaves the counter raised |
| Editing.ImportCircle | app/js/services/map-service.js:364-375 | a circle feature read while the tool is on is counted, then created with its radius or Leaflet's default 10 m |
| Editing.ImportedRadius | app/js/services/map-service.js:368 | the radius of an imported circle is the feature's, or the `CircleMarker` default of 10 m when it has none |
| Editing.ImportOther | app/js/services/map-service.js:359-386 | other features, and any circle once the tool is off, are skipped or counted before a throw |
| Editing.CreatedPending | app/js/services/map-service.js:774-778 | while an import is pending creation emits nothing and lowers the counter iff it completes |
| Editing.ImportAllSpec | app/js/services/map-service.js:358-389 | the import loop emits nothing; run to its end it adds one circle per drawable feature and leaves the counter as it found it; drawing anything needs the tool on at the start, and drawing two or more ends with at most ten circles |
| Editing.ImportIgnored | app/js/services/map-service.js:346-354 | a falsy document, or one that does not parse, changes nothing: no tool, no shapes |
| Editing.ImportSpec | app/js/services/map-service.js:346-398 | emits nothing, leaves the counter, enables the tool unless ten or more circles, and the buttons and marks follow validity; two or more drawable features that would pass ten circles always throw |
| Editing.RepairedZonesExport | app/js/services/map-service.js:160-191 | exporting the repaired zones gives the repaired features over the same layers |
| Editing.ExportStable | app/js/services/map-service.js:112-118 | exporting twice gives the same text, so the map is clean right after its state is recorded |
| Editing.RepairedZonesKeep | app/js/services/map-service.js:185-187 | the export changes only the stored radii |
| ZoneEditor.NoneEmptyAppend | app/js/services/map-service.js:601-614 | no input of two groups is empty iff none of either is |
| ZoneEditor.MapService.constructor | app/js/services/map-service.js:20-48 | an empty editor: no zones, the tool on, the counter 0, no events or notices, configuration mode |
| ZoneEditor.MapService.CheckLabelsAreValid | app/js/services/map-service.js:601-614 | the loop over the inputs returns `LabelsAreValid` of their values |
| ZoneEditor.MapService.ToggleLabelsValidStyles | app/js/services/map-service.js:616-634 | the loop restyles every input as `Styled` says |
| ZoneEditor.MapService.EmitEvent | app/js/services/map-service.js:696-711 | the new state is the gate applied to the old one |
| ZoneEditor.MapService.OnKeyUp | app/js/services/map-service.js:743-755 | the method computes `KeyUp`: Enter first blurs the focused label input, which saves its label, then the inputs are restyled |
| Editing.KeyUpSpec | app/js/services/map-service.js:743-755 | the input values stay and their marks follow their validity; without Enter or a focused input nothing else changes, with Enter the focused input is blurred |
| Editing.BlurredSpec | app/js/services/map-service.js:578 | blurring a zone's open input commits its value as label and saves: `mapEdited` iff the labels are valid, the failure notification otherwise; no other zone changes but for its mark |
| ZoneEditor.MapService.GuessLabel | app/js/services/map-service.js:443-446 | returns the default label, by `translateString('ZONE', ...)` in the current copy once its key is corrected |
| ZoneEditor.MapService.InitPopup | app/js/services/map-service.js:441-463 | the zones become `InitPopup` of the old ones |
| ZoneEditor.MapService.AddCircle | app/js/services/map-service.js:758-766 | the circle is added with a fresh id and the tool follows the maximum |
| ZoneEditor.MapService.Settle | app/js/services/map-service.js:774-778 | the counter-or-emit rule |
| ZoneEditor.MapService.DrawCreated | app/js/services/map-service.js:757-779 | the new state is `Created` of the old one |
| ZoneEditor.MapService.DrawDeleted | app/js/services/map-service.js:793-806 | the new state is `Deleted` of the old one |
| ZoneEditor.MapService.DrawEdited | app/js/services/map-service.js:785-791 | the new state is `Edited` of the old one |
| ZoneEditor.MapService.LabelArea | app/js/services/map-service.js:541-551 | the new state is `Commit` of the old one |
| ZoneEditor.MapService.DrawEditedResize | app/js/services/map-service.js:781-783 | the zone takes its new radius, then its label is committed without saving |
| ZoneEditor.MapService.RegenerateTooltips | app/js/services/map-service.js:507-515 | the loop computes `RegenerateFrom` |
| ZoneEditor.MapService.RecoverZone | app/js/services/map-service.js:520-536 | one zone is recovered as `RecoverAt` says |
| ZoneEditor.MapService.RecoverStateBeforeDeletion | app/js/services/map-service.js:517-539 | the loop computes `RecoverFrom` |
| ZoneEditor.MapService.ImportFeature | app/js/services/map-service.js:359-387 | one feature is imported as `ImportOne` says: a circle without a radius gets 10 m, and one read once the tool is off throws |
| ZoneEditor.MapService.ApplyStyles | app/js/services/map-service.js:391-394 | the styles and buttons follow the validity |
| ZoneEditor.MapService.Import | app/js/services/map-service.js:346-398 | the new state is `Import` of the old one |
| ZoneEditor.MapService.GenerateMap | app/js/services/map-service.js:106-109 | records a truthy initial document then imports it |
| ZoneEditor.MapService.ExportGeoJSON | app/js/services/map-service.js:160-191 | returns the text of the repaired features and writes the radii back |
| ZoneEditor.MapService.IsMapDirty | app/js/services/map-service.js:112-114 | dirty iff the baseline differs from the export, both before and after |
| ZoneEditor.MapService.UpdateInitialGeoJsonState | app/js/services/map-service.js:116-118 | the baseline becomes the export and the map is not dirty |
| ZoneEditor.MapService.ResetMap | app/js/services/map-service.js:120-129 | clears the zones and re-imports the baseline |
| ZoneEditor.MapService.SwitchMode | app/js/services/map-service.js:193-235 | shapes, labels, toolbar and buttons hidden, and the close-replay control shown, exactly in playback mode; leaving it clears the replayed positions |
| ZoneEditor.MapService.InitTimeLine | app/js/services/map-service.js:237-317 | with samples, the features are `Moments` and the slider is `SliderFor`; without, a warning notice |

## Left out

- Leaflet, leaflet-draw and leaflet.timeline internals are not modelled:
  - map creation, tiles and `fitBounds` (`_centerMap`);
  - popup binding and the control being removed and added again;
  - the playback of the positions;
  - the click on `.play`.

  They appear only through the zone sequence, the tool flag and the visibility fields of `View`.
- The DOM is modelled only through values:
  - element lookups become the zones' inputs;
  - class toggles become the `invalid` marks and `buttonsDisabled`.

  `translateInterface`, the HTML templates and the user typing into an input are not modelled. Typing is a DOM action that the model's inputs leave to the caller.
  The element Enter blurs in `_onKeyUp` is a parameter: the id of the zone whose label input has focus, or none when the focus is elsewhere.
- The network and asynchrony are left out:
  - `getPositions` is a parameter of `InitTimeLine` (its resolved result);
  - `addCurrentPositionMarker`, `addMarker` and the polling of the last position are left out;
  - so is the hosts' save orchestration.
- `validateDrawings`, `debugLayers` and `_debugEvent` are left out: they only log.
- Import of a non-circle point: the marker branch depends on a marker mode the draw control disables. It is modelled as a throw that leaves the counter raised.
- A circle feature without a radius is drawn with Leaflet's default radius of 10 m (`DefaultCircleRadius`). The style options that Leaflet then drops are not modelled.
- A circle feature read once the tool is off, after the import has drawn its tenth circle, is modelled as a throw that leaves the counter raised: the circle draw mode is then gone from the toolbar, so reading its handler fails and the rest of the import, with its styling, does not run.
- A parsed document without `features` is not modelled: the parser returns the feature list directly.
- The HTML quoting of labels inside `value="…"`, and labels that contain a newline, are outside the recovery round trip. The lemmas require a label without a newline.
  The value of an input is taken to be the raw label. In the browser a label holding `"` is cut short at that quote, and one holding `&…;` is HTML-decoded, when the popup's markup is parsed; neither is modelled.
- `ZoneEditor.MapService.constructor`: the failure message of `_emitEvent` is computed once, at construction. This is valid because the translator's language never changes.
- `Editing.Zone`: a popup is kept as the arguments of `_createPopUpContent` and is rendered on demand (`PopupText`). `Popup.RecoverLabelRoundTrip` relates the two.
- `ZoneEditor.MapService.InitTimeLine`: `lastUserPositionGroup.clearLayers()` and the removal of the old slider are not modelled.
- `ZoneEditor.MapService.SwitchMode`: the `js-close-replay` and timeline controls are modelled as fields of `View`. `userPositionsHistoryGroup` is the sequence `positions`. Showing the current position (`addCurrentPositionMarker`) and centring the map are left out.
- `ZoneEditor.MapService.SwitchMode` and `ZoneEditor.MapService.InitTimeLine` require the current copy: the earlier copy has no modes or history.
- Times are integer milliseconds: `moment` parsing and formatting are left out.
- Radii and coordinates are reals compared exactly. NaN and the double rounding of `toFixed` are not modelled.
- `Text.Lower` lowercases Basic Latin and the Latin-1 capitals only (A-Z, and À-Þ except ×). Full Unicode lowercasing is not modelled: Greek and Cyrillic capitals are kept as they are, and so is `İ`, which `toLowerCase` turns into two code units.
- For bucketing the code is followed: a new feature starts at least five minutes after the start of the current feature, and the previous one ends at the new start.
- `Timeline.Steps`: the double division and its printing are modelled exactly only for spreads of 0 to 3 ms. For larger spreads the model takes the double quotient to truncate like the exact one. That holds until the rounding of the double matters (spans of about 2.5e9 hours) and fails from 1e21 hours, where the text is in exponent notation again.

## Findings

| source | as written | input that shows it | evidently intended | confidence | as-written member | corrected member |
|---|---|---|---|---|---|---|
| app/js/services/map-service.js:445 | `translateString('zone', …)`, but the tables only have the key `ZONE`, so the lookup is `undefined` and `split` throws | the first circle drawn on an empty map, with no label of its own | `translateString('ZONE', { index })`, giving "zone 1" | high, not executed | Editing.DefaultLabelAsWritten | Editing.DefaultLabel |
| leaflet-draw-service.js:247-248 | with no label holding a digit, `Math.min()` is `Infinity` and `Math.max()` is `-Infinity`, so `Array(-Infinity)` throws a RangeError | the first circle drawn on an empty map | seed the list with 0, as the current copy does, so the guess is 1 | high, not executed | Labels.GuessZoneIndexLegacy | Labels.GuessZoneIndex |

For the first row:
- `Editing.DefaultLabelAsWrittenThrows` and `Editing.FirstCircleLabel` show the throw.
- `Editing.DefaultLabelIsTranslated` and `Editing.FirstCircleLabel` prove the corrected label.

For the second row:
- `Labels.LegacyGuessFailsWithoutNumbers` and `Editing.FirstCircleLabelLegacy` show the throw.
- `Labels.GuessOnEmptyMap` and `Labels.GuessZoneIndexSpec` prove the corrected guess.
