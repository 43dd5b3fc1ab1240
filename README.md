# Eval Craft Builder — the authoring and viewing pipeline in Dafny

Eval Craft Builder lets an author assemble a three-screen "value
assessment" (Home, Inputs, Results) in a drag-and-drop editor, and then
publish it to a presentation view where the viewer fills in numbers and
sees calculated results. This project models the deterministic part of
that pipeline and proves properties of it:

- **VAD catalog** (`VadCatalog`, catalog.dfy). This is the static table of the six value drivers
  (VADs), in declaration order, each with its input fields and their
  units.
- **Selection detector** (`VadSelection`, selection.dfy). It scans a serialized editor layout for
  the marker `"title":"<name>"` of each catalog name. The plain substring
  test is kept as written, false positives included.
- **Input value table** (`InputsRenderer`, inputs_renderer.dfy). This is the table VAD → field index →
  `{value, uom}`. It is built from the selected names and the catalog, then
  edited one cell at a time by a `Renderer` object. Each edit is handed to
  the optional listener.
- **Numeric coercion** (`NumberCoercion`, coercion.dfy). `parseFloat` is modelled as a
  decimal-prefix parser over `real`, and an unparsable value counts as 0.
  Sums are taken over the values of a map.
- **Storage slot and evaluation stub** (`Api`, api.dfy). A single storage slot is shared by
  both applications, and `calculateFromEval` sums per VAD.
- **Calculation engine and presentation session** (`PresentApp`, present_app.dfy). This covers the
  per-VAD formula switch, the default sum, the four headline figures, and
  the session fields `active`, `config`, `loading`, `results` and
  `inputValues`.
- **Build session** (`BuildApp`, build_app.dfy). It holds three nullable layouts, gates
  Publish on all three being built, and runs the stepper's clickability
  rule. It also covers the zoom buttons clamped to [50, 150] in steps of 10,
  the theme switch, and the viewport widths.
- **Publish flow** (`PublishFlow`, publish_flow.dfy). This is the hand-off from a build session
  through the slot to a presentation.

The formula switch has mismatches, and they are modelled as written:

- The case labels "Increased Recyclability" and "Embodied Carbon Reduction"
  are not catalog names. So the catalog VADs "Increase in Recyclability"
  and "Lower Material Input Emissions" take the default sum.
- The electricity and ticket-sales formulas read field indices 1 and 2.
  The avoided-revenue formula reads index 2. The catalog creates none of
  these fields, so on a table built from the catalog those formulas are 0.

## Model

| member | source | states |
|---|---|---|
| VadCatalog.Configs | src/vadInputs.ts:17-97 | the catalog has exactly six entries, and its keys are the six VAD names in declaration order |
| VadCatalog.CatalogWellFormed | src/vadInputs.ts:17-97 | keys are distinct, and each entry's `vadName` equals its key. Every field is a number field whose `defaultUOM` is one of its options ["$","Number","%","kWh"]. "Avoided Revenue Loss" has two fields and every other entry has one |
| VadCatalog.Keys | src/builder/craft/CraftEditorShell.tsx:15-22 | `Object.keys` of the catalog is exactly the editor palette list `VADS_LIST`, in the same order |
| VadCatalog.KeysOf | src/vadInputs.ts:17-97 | the key sequence of an entry list has one key per entry, position by position |
| VadCatalog.Find | src/vadInputs.ts:17-97 | a key lookup over an entry list: absent iff the name is not a key; when present, the result is that key's entry |
| VadCatalog.EntryOf | src/vadInputs.ts:18-96 | every entry of a well-formed catalog has a matching name, the expected field count, and number fields with standard units |
| VadCatalog.Lookup | src/vadInputs.ts:17-97 | `VAD_INPUT_CONFIGS[name]` is defined iff the name is a catalog key. The config found is exactly the catalog entry under that key, and carries the same name, the exact field count and standard number fields |
| VadSelection.Includes | src/vadSelection.ts:17 | `String.includes` holds iff the needle occurs at some offset of the text |
| VadSelection.TailSlice | src/vadSelection.ts:17 | (proof helper) a slice of the text without its first character is the slice of the text one position further on |
| VadSelection.ContainsTail | src/vadSelection.ts:17 | (proof helper) when the text does not start with the needle, the needle occurs in the text iff it occurs in the text's tail |
| VadSelection.SelectMarked | src/vadSelection.ts:15-20 | the loop appends, in key order, exactly the keys whose marker the text contains |
| VadSelection.DetectSelectedVADsFromLayout | src/vadSelection.ts:9-23 | the method returns the detector's specification `Detect(layout)` (null or empty gives nothing, otherwise the marked catalog keys). Being a function of the layout, it is deterministic |
| VadSelection.FilterMembership | src/vadSelection.ts:15-19 | a name is selected iff it is among the keys and the text contains its marker |
| VadSelection.FilterIsSubsequence | src/vadSelection.ts:15-20 | the selection is a subsequence of the keys, so it is no longer than they are |
| VadSelection.FilterNoDuplicates | src/vadSelection.ts:15-20 | distinct keys give a selection without duplicates |
| VadSelection.DetectSpec | src/vadSelection.ts:9-23 | a null or empty layout gives []. The result follows catalog order, has no duplicates and at most six names. A name is selected iff it is a catalog key whose marker `"title":"<name>"` the layout contains |
| VadSelection.ContainsTransitive | src/vadSelection.ts:17 | substring containment is transitive |
| VadSelection.DetectMonotone | src/vadSelection.ts:17 | every name detected in a layout is also detected in any text containing that layout |
| NumberCoercion.DigitRun | src/present/PresentApp.tsx:104 | the digit run at the start of a string is all digits, maximal, and empty iff the string does not start with a digit |
| NumberCoercion.TrimStart | src/present/PresentApp.tsx:104 | skipping white space leaves a suffix of the text that is empty or starts with a non-space character, and everything dropped is white space |
| NumberCoercion.ExponentScale | src/present/PresentApp.tsx:104 | an exponent part scales by a positive factor, and text that does not start with an exponent marker followed by digits (after an optional sign) leaves the value unscaled |
| NumberCoercion.DigitRunPrefix | src/present/PresentApp.tsx:104 | (proof helper) a digit run stops exactly where the digits end |
| NumberCoercion.ExponentScaleValue | src/present/PresentApp.tsx:104 | an exponent `e`/`E`, optional sign and digits d scales by 10^d, or by 10^-d when the sign is `-` |
| NumberCoercion.ParseUnsigned | src/present/PresentApp.tsx:104 | an unsigned literal parses iff it starts with a digit, or with a point followed by a digit |
| NumberCoercion.ParseFloat | src/present/PresentApp.tsx:104-105 | `parseFloat` gives a number iff, after white space and an optional sign, the text starts with a digit or with a point and a digit. Otherwise it gives NaN |
| NumberCoercion.Unsigned | src/present/PresentApp.tsx:104 | stripping the sign leaves the text unchanged or drops exactly one leading `+` or `-` |
| NumberCoercion.Coerce | src/present/PresentApp.tsx:104-105 | a number passes through, text is read by `parseFloat`, and NaN becomes 0 |
| NumberCoercion.DecimalString | src/present/PresentApp.tsx:104 | the decimal rendering of a natural number is a non-empty digit string |
| NumberCoercion.DecimalStringValue | src/present/PresentApp.tsx:104 | the digits of the rendering denote the number |
| NumberCoercion.DigitRunAll | src/present/PresentApp.tsx:104 | a string of digits is read to its end |
| NumberCoercion.ParseAllDigits | src/present/PresentApp.tsx:104 | a digit string parses to its decimal value |
| NumberCoercion.ParseDecimal | src/present/PresentApp.tsx:104 | round trip: parsing the decimal rendering of `n` gives `n` back |
| NumberCoercion.ParseNegativeDecimal | src/present/PresentApp.tsx:104 | round trip with a minus sign: `-n` |
| NumberCoercion.NonNumericIsZero | src/present/PresentApp.tsx:105 | text that `parseFloat` rejects counts as 0 and raises no error |
| NumberCoercion.BlankIsZero | src/present/InputsRenderer.tsx:27 | the blank initial cell value counts as 0 |
| NumberCoercion.CoerceTen | src/present/PresentApp.tsx:104-105 | the text "10" counts as 10 |
| NumberCoercion.CoerceAbc | src/present/PresentApp.tsx:104-105 | the text "abc" counts as 0 |
| NumberCoercion.SizeAfterRemove | src/present/PresentApp.tsx:177-182 | (proof helper) removing a present key shrinks the map by one |
| NumberCoercion.TotalPick | src/present/PresentApp.tsx:177-182 | the sum of a map's values can start from any key, so the iteration order of `Object.values` does not matter |
| NumberCoercion.TotalOfZeros | src/present/PresentApp.tsx:191 | values that are all 0 sum to 0 |
| NumberCoercion.SumValues | src/present/PresentApp.tsx:191 | the `reduce` loop over `Object.values` computes the sum of the map's values |
| InputsRenderer.UnitOrDollar | src/present/InputsRenderer.tsx:28 | `defaultUOM \|\| "$"` is never empty, and a non-empty default unit is kept |
| InputsRenderer.InitialEntry | src/present/InputsRenderer.tsx:22-31 | a name the catalog does not know gets no cells. A catalog VAD with n fields gets indices 0 .. n-1 exactly, each blank and with a standard unit |
| InputsRenderer.InitialTableMeaning | src/present/InputsRenderer.tsx:20-34 | the initial table's keys are exactly the given names, each cell is blank, and each carries its field's default unit or "$" |
| InputsRenderer.FillEntry | src/present/InputsRenderer.tsx:25-30 | the `forEach` over the fields fills indices 0 .. n-1, each with a blank value and the field's unit |
| InputsRenderer.BuildEntry | src/present/InputsRenderer.tsx:22-31 | one `reduce` step builds the initial entry of its name: no cells for an unknown name, one filled cell per catalog field otherwise |
| InputsRenderer.EntryOf | src/present/InputsRenderer.tsx:21-33 | (proof helper) every listed name has its initial entry in the table |
| InputsRenderer.InitialTableSnoc | src/present/InputsRenderer.tsx:21-33 | one `reduce` step adds exactly the entry of the next name |
| InputsRenderer.BuildInitialTable | src/present/InputsRenderer.tsx:20-34 | the `reduce` builds the table that `InitialTableMeaning` describes |
| InputsRenderer.WithValue | src/present/InputsRenderer.tsx:36-39 | setting a value keeps the table's shape, sets that cell's value, keeps its unit, and leaves every other cell unchanged |
| InputsRenderer.WithUom | src/present/InputsRenderer.tsx:43-46 | setting a unit keeps the table's shape, sets that cell's unit, keeps its value, and leaves every other cell unchanged |
| InputsRenderer.EditsCommute | src/present/InputsRenderer.tsx:36-48 | a value edit and a unit edit commute |
| InputsRenderer.Renderer.constructor | src/present/InputsRenderer.tsx:19-34 | the component starts from the initial table, and nothing has been delivered yet |
| InputsRenderer.Renderer.HandleValueChange | src/present/InputsRenderer.tsx:36-41 | the cell must exist. The table becomes the value-edited one, its shape is kept, and the new table is handed to the listener when there is one |
| InputsRenderer.Renderer.HandleUomChange | src/present/InputsRenderer.tsx:43-48 | the cell must exist. The table becomes the unit-edited one, its shape is kept, and the new table is handed to the listener when there is one |
| Api.LoadFrom | src/api.ts:17-29 | `loadBuildConfig` gives a configuration iff the slot holds a parsable configuration with the requested project id. That configuration is exactly what the slot holds. A missing slot, unparsable text, or a different id gives null |
| Api.Store.constructor | src/api.ts:9 | the slot starts empty |
| Api.Store.SaveBuildConfig | src/api.ts:11-15 | the single slot is overwritten, whatever project it held |
| Api.Store.LoadBuildConfig | src/api.ts:17-29 | the load reads the slot as `LoadFrom` describes, and never fails |
| Api.SaveTwiceThenLoad | src/api.ts:9-25 | round trip: a save loads back under its own id. A later save replaces an earlier one, so the earlier id loads the later bundle if the ids are equal and null otherwise |
| Api.CalculateFromEval | src/api.ts:32-45 | the result has one key per listed VAD, each the sum of that VAD's coerced values |
| Api.UnusableInputsGiveZero | src/api.ts:38-43 | a VAD without inputs, or with only unparsable text, evaluates to 0 |
| PresentApp.GetFieldNumber | src/present/PresentApp.tsx:97-106 | a missing index gives 0, a number passes through, text with a numeric prefix gives the value `parseFloat` reads, and unparsable text gives 0 |
| PresentApp.Max0 | src/present/PresentApp.tsx:134 | `Math.max(0, x)` is non-negative, at least x, and one of the two |
| PresentApp.Formula | src/present/PresentApp.tsx:120-185 | a formula applies iff the name is one of the six case labels. The maintenance formula is never negative |
| PresentApp.Headlines | src/present/PresentApp.tsx:191-194 | investments plus net benefit equal the total. Investments are 0 iff the total is 0, and then ROI and net benefit are 0. Otherwise ROI × investments = net benefit and ROI = 7/3 |
| PresentApp.WithHeadlines | src/present/PresentApp.tsx:196-202 | the result keeps the per-VAD keys and adds the four headline keys with their figures. The headline keys override a per-VAD key of the same name, and every other per-VAD key keeps its total |
| PresentApp.ComputeVadTotal | src/present/PresentApp.tsx:117-187 | one step of the `forEach` gives the VAD's total: the formula's value, or the sum of its coerced fields |
| PresentApp.PerVadLoop | src/present/PresentApp.tsx:113-188 | the `forEach` records exactly one total per VAD of the table |
| PresentApp.CalculateResults | src/present/PresentApp.tsx:113-202 | the results table is the per-VAD totals with the headline figures of their sum |
| PresentApp.CalculateEntries | src/present/PresentApp.tsx:113-202 | every VAD of the table has a result entry, and the headline keys are present. A VAD not named like a headline keeps its own total, and the total annual value is the sum of the per-VAD totals |
| PresentApp.CatalogNamesWithoutFormula | src/present/PresentApp.tsx:156-184 | the only catalog names without a case label are "Increase in Recyclability" and "Lower Material Input Emissions", and they take the default sum |
| PresentApp.UncreatedFieldsZeroFormula | src/present/PresentApp.tsx:121-154 | on an entry shaped like the catalog's, the electricity, ticket-sales and avoided-revenue formulas yield 0 |
| PresentApp.ZeroThirdField | src/present/PresentApp.tsx:121-154 | those three formulas are 0 whenever field 2 is missing |
| PresentApp.TotalOfThree | src/present/PresentApp.tsx:177-182 | (proof helper) the values of a three-cell map sum to their sum |
| PresentApp.DefaultBranch | src/present/PresentApp.tsx:175-184 | a name matching no case totals the coerced values of all its fields |
| PresentApp.CoercedThree | src/present/PresentApp.tsx:177-182 | (proof helper) coercing a three-cell entry coerces each cell |
| PresentApp.DefaultSumOfThree | src/present/PresentApp.tsx:175-184 | a three-field VAD without a formula totals its three coerced values |
| PresentApp.DefaultSumExample | src/present/PresentApp.tsx:175-184 | fields "10", "abc" and 5 give 15 in the default branch |
| PresentApp.HeadlineExamples | src/present/PresentApp.tsx:191-194 | a total of 1000 gives investments 300, net benefit 700 and ROI 7/3, and a total of 0 gives ROI 0 |
| PresentApp.ZeroCellsZeroTotal | src/present/PresentApp.tsx:120-185 | a VAD whose every cell counts as 0 totals 0, whichever branch it takes |
| PresentApp.InitialTableCalculatesZero | src/present/PresentApp.tsx:113-202 | calculating on an untouched initial table gives 0 for every VAD and for every headline figure |
| PresentApp.RequestedProjectId | src/present/PresentApp.tsx:79 | with no `projectId` query the session opens "demo-project", and otherwise it opens the requested one |
| PresentApp.PresentSession.constructor | src/present/PresentApp.tsx:70-75 | the session starts on Home, loading, with no configuration, no results and an empty input table |
| PresentApp.PresentSession.Load | src/present/PresentApp.tsx:77-87 | the configuration becomes what the slot yields for the requested id, loading ends, and nothing else changes; afterwards the "not found" screen shows iff the slot yields nothing for that id |
| PresentApp.PresentSession.NotFound | src/present/PresentApp.tsx:205-222 | the "no build configuration found" screen shows only after loading has ended with no configuration, and then no VAD is selected; while loading, or with a configuration, it does not show |
| PresentApp.PresentSession.SelectedVads | src/present/PresentApp.tsx:94 | with no configuration nothing is selected. Every selected name is a catalog name, and none appears twice |
| PresentApp.PresentSession.SelectTab | src/present/PresentApp.tsx:227-236 | a tab click switches to that tab and changes nothing else |
| PresentApp.PresentSession.SetInputValues | src/present/PresentApp.tsx:75 | the listener replaces the input table and changes nothing else |
| PresentApp.PresentSession.HandleCalculate | src/present/PresentApp.tsx:108-204 | on an empty input table neither `results` nor `active` changes. Otherwise the results are the calculated table and the Results tab is shown |
| BuildApp.PageBuiltMeaning | src/builder/BuildApp.tsx:84 | a layout counts as built iff it is present and non-empty |
| BuildApp.ViewportWidth | src/builder/BuildApp.tsx:126-136 | mobile maps to 375px, tablet to 768px, and desktop to 100%, each width for its own mode only |
| BuildApp.ThemeFor | src/builder/BuildApp.tsx:118-124 | "light" selects the light theme, and any other mode selects the dark theme |
| BuildApp.ZoomOut | src/builder/BuildApp.tsx:231 | the "−" button lowers the zoom by 10 and stops at 50, staying on the grid |
| BuildApp.ZoomIn | src/builder/BuildApp.tsx:241 | the "+" button raises the zoom by 10 and stops at 150, staying on the grid |
| BuildApp.ZoomStaysInRange | src/builder/BuildApp.tsx:77-241 | from any level in [50, 150] that is a multiple of 10, every sequence of presses stays in that range and on that grid |
| BuildApp.InitialZoomValid | src/builder/BuildApp.tsx:77 | the initial zoom of 100 is on the grid, and so is every level reachable from it |
| BuildApp.BuildSession.constructor | src/builder/BuildApp.tsx:70-78 | the session starts on Home with three null layouts, the default theme, zoom 100 and the desktop view |
| BuildApp.BuildSession.Bundle | src/builder/BuildApp.tsx:94-100 | the persisted bundle carries "demo-project", the current theme and the three layouts unchanged |
| BuildApp.BuildSession.SelectedVads | src/builder/BuildApp.tsx:91 | an unbuilt inputs layout selects nothing. Every selected name is a catalog name, and none appears twice |
| BuildApp.BuildSession.PublishMeansAllStepsDone | src/builder/BuildApp.tsx:86-89 | `canPublish` holds iff every stepper step is completed, and then every step is clickable |
| BuildApp.BuildSession.ClickableSteps | src/builder/BuildApp.tsx:144-165 | step 0 is always clickable, and each later step is clickable iff the screen before it is built |
| BuildApp.BuildSession.SetHomeData | src/builder/BuildApp.tsx:287 | the home editor's `onChange` replaces that layout only |
| BuildApp.BuildSession.SetVadData | src/builder/BuildApp.tsx:296 | the inputs editor's `onChange` replaces that layout only |
| BuildApp.BuildSession.SetResultsData | src/builder/BuildApp.tsx:304 | the results editor's `onChange` replaces that layout only |
| BuildApp.BuildSession.PersistConfig | src/builder/BuildApp.tsx:93-102 | the slot holds the current bundle, which loads back under "demo-project" |
| BuildApp.BuildSession.HandleSave | src/builder/BuildApp.tsx:104-108 | Save persists whatever has been built so far, ungated |
| BuildApp.BuildSession.HandlePublish | src/builder/BuildApp.tsx:110-116 | without `canPublish` the slot and the opened windows are unchanged. Otherwise the slot holds the bundle and the presentation URL is opened once. The session state is unchanged in both cases |
| BuildApp.BuildSession.HandleThemeChange | src/builder/BuildApp.tsx:118-124 | the theme becomes the one `ThemeFor` picks, and nothing else changes |
| BuildApp.BuildSession.ClickStep | src/builder/BuildApp.tsx:165-180 | clicking a clickable step makes it active, and clicking any other step leaves `active` unchanged |
| BuildApp.BuildSession.ZoomOutPressed | src/builder/BuildApp.tsx:229-235 | the zoom becomes `ZoomOut` of the old zoom and stays on the grid |
| BuildApp.BuildSession.ZoomInPressed | src/builder/BuildApp.tsx:239-245 | the zoom becomes `ZoomIn` of the old zoom and stays on the grid |
| BuildApp.BuildSession.SetViewMode | src/builder/BuildApp.tsx:249-253 | the view mode selector sets the mode only |
| PublishFlow.SameDemoProject | src/builder/BuildApp.tsx:11 | the build session saves under the project a presentation opens by default |
| PublishFlow.PublishThenPresent | src/builder/BuildApp.tsx:110-116 | with three built screens, publishing opens the presentation URL once. The presentation then loads exactly the published bundle, and selects the VADs its inputs layout names |
| PublishFlow.PublishIncompleteThenPresent | src/builder/BuildApp.tsx:110-111 | with an unbuilt screen, publishing writes and opens nothing, so a presentation on a fresh slot finds no configuration |
| PublishFlow.SaveThenPresent | src/builder/BuildApp.tsx:104-108 | Save is not gated, so a presentation loads even an unfinished bundle |
| Wrappers.Option.GetOr | src/present/PresentApp.tsx:79 | `??`: the value when present, otherwise the default |

## Left out

- The undo/redo history of the build layouts is not modelled, because the code has none.
- `applyTheme` only injects a `<style>` element and sets attributes on the document body, so it is not modelled.
- The Craft.js editor and the rendering components are left out. This covers the builder pages, the presentation pages, node rendering and routing. The layout string is opaque except for the substring scan.
- The wiring between InputPage and InputsRenderer is left out. InputPage.tsx does not pass `onInputsChange`, so in the running app the presentation's `inputValues` stays `{}`. The engine is modelled as a function of any given table, and `Renderer` takes `listening` as a parameter.
- Numbers are `real`. IEEE rounding, NaN, Infinity, the `Number.isFinite` filter of the total (always true on reals), `toFixed` and `toLocaleString` are not modelled.
- NumberCoercion.ParseFloat and NumberCoercion.TrimStart: the model skips only ASCII white space (space, tab, line feed, carriage return, U+000B, U+000C), the no-break space U+00A0 and the byte-order mark U+FEFF before a number. JavaScript's `parseFloat` also skips U+1680, U+2000-U+200A, U+202F, U+205F, U+3000, U+2028 and U+2029, so text that starts with one of these before its number counts as non-numeric (0) in the model. The "Infinity" literal is not modelled either.
- VadCatalog.Lookup and InputsRenderer.InitialEntry: names inherited from `Object.prototype` ("toString", "constructor", "__proto__") are treated as unknown. In JavaScript such a lookup finds a truthy value and `config.fields.forEach` would throw. The only caller passes names the selection detector returns, which are always catalog keys, so that path is unreachable.
- `localStorage` is a single `Store` object. `JSON.stringify` and `JSON.parse` are taken to round-trip exactly. Text that does not parse, or parses to something without a `projectId`, is one `Unparsable` case.
- The promises, `await`, the 400 ms `setTimeout` of `calculateFromEval`, the `saving` and `publishing` button flags and the `loading` screen's timing are not modelled. Each handler is modelled as completing before the next event.
- `window.open` is recorded as the URL appended to `openedUrls`. `URLSearchParams` is replaced by an optional `projectId` query.
- src/vadVariables.ts is not part of this model, because no modelled code reads it.
- InputsRenderer.Renderer.HandleValueChange: requires the edited cell to exist, because the code dereferences it without a check and would raise a TypeError.
- InputsRenderer.Renderer.HandleUomChange: requires the edited cell to exist, for the same reason.
- InputsRenderer.Renderer: the handlers write the new value into the cell object that the old and the new table share. The model treats tables as values, so that aliasing is not captured.
- The `VADId` identifiers of the evaluation stub are a datatype. Their string spellings, such as "reduced_electricity", are not modelled.
