# field-calc in Dafny

field-calc is a browser calculator for shop-floor use. It offers a catalogue of small engineering formulas: material weights, volumes, cutting speed and feed, and coordinate geometry. Each formula is a template with an input form, and each template shows its results as a list of labelled values. Favourites, a saved history capped at 200 records, and the last-typed inputs per template are kept in the browser.

The project models:

- the template descriptor and its `compute` closures (`TemplateShape`, `Weights`, `Machining`, `Coords`);
- the catalogue and the fixed group order (`Registry`);
- the generic compute layer of the current app, main.js: result normalisation, the strict/partial input check and the error messages (`Shell`);
- the state of main.js as a class `Shell.App`, with a method per user action;
- the first generation of the app, app.js, with its own normalisation, input check, history text and state class (`Legacy`);
- the helpers of utils.js (`Utils`), the listing filter and grouping (`Listing`), the history and favourites (`History`), and the work area's prefill, reset and input collection (`WorkArea`);
- end-to-end lemmas (`Pipeline`) that take each built template through `computeTemplate`.

A JavaScript number is `Finite(r)` over exact reals, or `NonFinite` for NaN and ±Infinity, because the code only ever asks `Number.isFinite`. `Math.PI` is 3.141592653589793, the shortest decimal that reads back as the double `Math.PI`, taken as an exact real. `Math.sqrt` and the trigonometric functions arrive as fields of a `MathLib` value; `Sound(m)` collects the laws the proofs use (√ is non-negative, squares back, and is increasing; sin² + cos² = 1). `parseFloat` is a parameter `parse: string -> Num`, `String.prototype.toLowerCase` is a parameter `lower: string -> string` of the list rendering, and the rounding and locale rendering of `formatNum` is a parameter `show: real -> string`. The random id and the timestamp of a history record are parameters.

The right-triangle solver `solveRightTriangle` is kept as an imperative method with all its case-table branches, its back-fill and its final checks. It is proved equal to a reference function `Coords.Solved` that has only the first pair of each case. So, over exact reals (see Left out) and with exactly one quantity missing, every fallback pair, every "組合せ不足" throw, every back-fill and the "計算失敗" throw are dead code.

Where the written description of the system and the code disagree, the model follows the code:

- The description asks a parse to reject trailing garbage. The code uses `parseFloat`, which accepts a numeric prefix. The model leaves `parse` abstract.
- The description mentions a bounded-partial policy (`maxInputs`). No template or code path has it, so it is not modelled.
- The description gives the input-check failure in English. The code's message is "未入力/数値でない項目があります", and the model uses it.

## Model

| member | source | states |
|---|---|---|
| Utils.TrimStart | utils.js:27 | the result is a suffix of the input, only white space is dropped, and it does not start with white space |
| Utils.TrimEnd | utils.js:27 | the result is a prefix of the input, only white space is dropped, and it does not end with white space |
| Utils.TrimSpec | utils.js:27 | `trim()` keeps a contiguous piece of its input containing every non-space character, with no white space at either end |
| Utils.TrimFixesTrimmed | utils.js:27 | a string with no white space at its ends is unchanged by `trim()` |
| Utils.SanitizeNumber | utils.js:25-28 | null/undefined give ""; the result has no comma and no white space at its ends, and keeps every character that is neither a comma nor white space |
| Utils.SanitizeIdempotent | utils.js:25-28 | sanitizing twice equals sanitizing once |
| Utils.ToNum | utils.js:30-33 | the result is present exactly when parseFloat of the sanitized text is finite, and is then that number (never NaN or ±Infinity) |
| Utils.ToNumIgnoresSanitizing | utils.js:30-33 | `toNum(sanitizeNumber(s)) == toNum(s)` |
| Utils.FormatNum | utils.js:40-44 | any non-finite number prints as "-"; a finite one is given by the rendering parameter |
| Utils.CopyLinesKeepFiniteInOrder | utils.js:46-51 | the copy lines keep exactly the finite entries: one line for a finite entry, none otherwise, and concatenation is preserved, so the original order is kept |
| Utils.CopyLinesAllFinite | utils.js:46-51 | with every value finite there is one line per entry, line i being entry i's |
| Utils.EscapeHtml | utils.js:53-57 | the output has no `<`, `>`, `"` or `'`; an input without the five special characters is returned unchanged; the output is never shorter |
| Utils.UnescapeEscape | utils.js:53-57 | decoding the five entities restores the input exactly, so each character is replaced by its entity or copied, in order |
| Seqs.Filter | main.js:72-77 | `filter` keeps exactly the elements satisfying the predicate, all taken from the input |
| Seqs.FilterConcat | main.js:72-77 | filtering distributes over concatenation, so kept elements keep their order |
| TemplateShape.NumOf | main.js:332 | a field reads as a finite number exactly when `Number.isFinite` holds of it |
| JsMath.Div | templates/machining.js:14 | a division is finite exactly when the divisor is non-zero, and then it multiplies back to the dividend |
| JsMath.SqrtOfSquare | templates/coords.js:125 | √(y²) = y for y ≥ 0 |
| JsMath.HypotenuseLonger | templates/coords.js:137 | √(a² + b²) exceeds both positive legs |
| Weights.DensityFromMaterial | templates/weights.js:19-22 | a known code gives its table density, and any other code the select can hold (or a missing one) gives 7.85; always positive |
| Weights.DensityTable | templates/weights.js:1-22 | SS→7.85, SUS→8.00, AL→2.70, CU→8.90, any other code the select can hold, or none→7.85 |
| Weights.OptionsMatchDensityTable | templates/weights.js:1-17 | the option values offered are exactly the keys of the density table |
| Weights.PipeDualOutcome | templates/weights.js:84-108 | w_pipe_dual succeeds iff D and L are given, exactly one of t and Di is given and 0 < Di < D (Di = D − 2t when t is given); the checks fire in that order with their messages; on success D² − Di² > 0 and the weight is the ring formula |
| Machining.SpindleSpeedInverse | templates/machining.js:14 | rpm is finite iff D ≠ 0, and then rpm·π·D/1000 = Vc |
| Machining.FeedPerToothGuards | templates/machining.js:45-58 | the guards fire in the order non-numeric, z ≤ 0, rpm ≤ 0, F < 0, each exactly when the earlier ones pass; it returns iff z > 0, rpm > 0 and F ≥ 0 |
| Machining.FeedPerToothRoundTrip | templates/machining.js:57 | a returned fz is finite and non-negative, and fz·z·rpm = F |
| Machining.FeedThenFeedPerTooth | templates/machining.js:29-58 | the feed rate of fz ≥ 0 on a positive z and rpm solves back to exactly fz |
| Machining.ArcIsShareOfCircumference | templates/machining.js:72-79 | the primary entry is the circumference π·D; arc·360 = π·D·angle; at angle 360 the arc is the circumference |
| Coords.MissingOne | templates/coords.js:110-117 | with exactly one key missing, the first of the list is that key and all others are given |
| Coords.OtherLegLaw | templates/coords.js:125 | for 0 < leg < hyp, √(hyp² − leg²) is positive and completes a right triangle |
| Coords.HypotenuseLaw | templates/coords.js:137 | for positive legs, c = √(a² + b²) has c² = a² + b² and is longer than either leg |
| Coords.SolveRightTriangle | templates/coords.js:108-157 | the solver as written, with every branch, back-fill and check, always gives the reference table's result, so the fallback branches and later throws are unreachable |
| Coords.SolvedShape | templates/coords.js:116-156 | unless exactly one quantity is missing it throws "3つを入力…"; on success the given quantities come back unchanged and a, b, c are positive (θ is not range-checked) |
| Coords.SolveForSideA | templates/coords.js:125 | missing a: it succeeds exactly when 0 < b < c, and a is then √(c² − b²) |
| Coords.SolveForSideB | templates/coords.js:131 | missing b: it succeeds exactly when 0 < a < c, and b is then √(c² − a²) |
| Coords.SolveForHypotenuse | templates/coords.js:137 | missing c: it succeeds exactly when a, b > 0, and c is then √(a² + b²) |
| Coords.SolveForAngle | templates/coords.js:143 | missing θ: it succeeds exactly when a, b, c > 0, and θ is then atan2(b, a) in degrees |
| Coords.ConsistentSides | templates/coords.js:125-137 | for a right triangle with c² = a² + b², each of the three square-root formulas gives back the missing side |
| Coords.SolveRoundTrip | templates/coords.js:108-157 | a consistent triangle is reproduced exactly, whichever one quantity is left blank |
| Coords.DistanceIsEuclidean | templates/coords.js:202-206 | the distance is non-negative and its square is dx² + dy² |
| Coords.PitchCirclePointOnCircle | templates/coords.js:243-252 | the pcd point lies at distance PCD/2 from (cx, cy) |
| Coords.JGrooveContract | templates/coords.js:275-303 | the guards fire in the order R ≤ 0, RG < 0, α ∉ (0, 89.999), and it returns iff all pass and abs(sin α) ≥ 1e-12; on success X = −RG − R·cos α, Y = Cy + R·sin α, H = −Y, Y-bottom = Cy − R and Cy·sin α = −(R + RG·cos α) |
| Registry.BuildTemplates | templates/index.js:7-13 | the catalogue's length is the sum of the three builders' lengths |
| Registry.CatalogueOrder | templates/index.js:7-13 | the catalogue is the weight templates, then the machining ones, then the coordinate ones, each builder's order kept |
| Registry.IdsDistinct | templates/index.js:7-13 | fourteen templates with pairwise distinct ids, so `find` by id is unambiguous |
| Registry.InputKeysDistinct | templates/index.js:7-13 | within each template the input keys are pairwise distinct |
| Registry.GroupSizes | templates/index.js:5-13 | indices 0–4 are 重量計算, 5–7 加工関係, 8–13 座標計算 (circumference_arc from the machining builder included), and every group is in `GROUP_ORDER` |
| History.PushedSpec | main.js:253-254 | after a save the new record is first, the previous records follow in order, and the length is min(old + 1, 200), the oldest being dropped |
| History.PushedKeepsCap | main.js:253-254 | a history within the cap stays within it over any sequence of saves, with length min(old + n, 200) |
| History.RemovedSpec | main.js:433 | deleting leaves no record with that id, keeps every other record in order, and changes nothing when no record has the id |
| History.ToggledSpec | main.js:60-64 | the toggle flips that one id's membership, leaves every other id alone, and twice restores the set |
| Listing.ContainsSpec | main.js:74 | `includes` holds exactly when the query occurs at some position |
| Listing.SectionsSound | main.js:79-95 | every section is non-empty, holds only templates of its own group, and sections come in strictly increasing group order |
| Listing.SectionsComplete | main.js:86-95 | every listed template of a known group appears in its group's section |
| Listing.ListedIff | main.js:72-95 | a template is shown iff (the query is empty or found in its haystack) and (not favourites-only or a favourite) |
| Listing.GroupKeepsOrder | main.js:80-83 | a group's cards keep catalogue order |
| Listing.GroupByCategory | main.js:79-83 | each bucket holds the templates of its group in order and is non-empty, and a group without a bucket has none |
| Listing.RenderSections | main.js:69-124 | the render loop gives exactly the sections of the filtered catalogue in `GROUP_ORDER`, empty groups skipped |
| WorkArea.FirstIndex | main.js:133 | −1 iff no template has the id; otherwise the position of the first one |
| WorkArea.Find | main.js:133-134 | `find` gives undefined iff no template has the id, otherwise the first such template |
| WorkArea.LastWinsSpec | main.js:282-291 | the keys assigned are the keys present, and each holds the value of its last assignment |
| WorkArea.PayloadSpec | main.js:277-294 | a select's raw text and value are its option code; another control's raw text is its sanitized value, and its number is present iff toNum of the value is |
| WorkArea.CollectInputPayload | main.js:277-294 | the loop builds exactly the payload of the controls |
| WorkArea.CollectLastInputs | main.js:296-302 | the loop stores each control's unsanitized value, the last one winning |
| WorkArea.BuildResetMap | main.js:262-265 | the reset map holds every input key with its default text or "" |
| WorkArea.PrefillSources | main.js:137-143 | an unseen template opens with its defaults; a non-empty saved value wins over the default |
| WorkArea.PrefillAfterReset | main.js:262-267 | after a reset the template reopens with exactly the default texts |
| Shell.NormalizedSpec | main.js:304-326 | never empty; a number gives one entry with the default label and unit; a numeric primary wins and ignores value/extras, with label/unit defaults and the others following; else a numeric value with the extras following; else one NaN entry |
| Shell.NormalizeComputeResult | main.js:304-326 | the push loop builds exactly the normalised list |
| Shell.EvaluateSpec | main.js:328-348 | a failure is always the single NaN entry; the error is "" iff the first value is finite; a strict template lacking a non-select input fails with "未入力…" whatever compute does; else a throw gives its message or "計算エラー" and a non-finite first value gives "計算結果が不正です…" |
| Shell.ComputeTemplate | main.js:328-348 | the loop with its early return computes exactly the compute layer's result |
| Shell.SavableIsSuccess | main.js:239-241 | a result the save button accepts is a success |
| Shell.ResultTextNonEmpty | main.js:243 | a saved result text is never empty |
| Shell.App.constructor | main.js:23-30 | the catalogue is built from the settings and the stored favourites, history and last inputs are loaded |
| Shell.App.ToggleFav | main.js:60-64 | the favourites become the toggled set |
| Shell.App.ToggleFavOnly | main.js:556-559 | the favourites-only flag flips |
| Shell.App.RenderList | main.js:69-127 | the list shown is the sections for the query put through `lower`, the haystack put through the same `lower` |
| Shell.App.OpenTemplate | main.js:132-147 | an unknown id changes nothing; otherwise the template becomes current and its fields are the prefill |
| Shell.App.SaveLastInputs | main.js:296-302 | the template's last inputs become the controls' values |
| Shell.App.Reset | main.js:262-268 | the defaults are stored; an unknown id leaves the current template and gives no fields; a known one becomes current with its prefill from the new last inputs, which for t's own inputs with distinct keys are exactly the default texts |
| Shell.App.SaveToHistory | main.js:234-258 | it saves iff every value of the computed list is finite; the history then becomes the capped push of the new record, else it is unchanged |
| Shell.App.DeleteHistory | main.js:432-436 | the history loses exactly the records with that id |
| Shell.App.ClearHistory | main.js:541-545 | the history becomes empty |
| Shell.App.ApplySettings | main.js:482-490 | the catalogue is rebuilt and the current template is reopened in it |
| Legacy.NormalizedExtendsV1 | app.js:60-69 | for any output without a numeric primary, main.js's list is v1's value under the default label and unit followed by v1's extras |
| Legacy.NormalizeV1IgnoresPrimary | app.js:60-69 | v1 normalisation ignores `primary` and `others` |
| Legacy.ExtraLineNonEmpty | app.js:75 | an extra's line is never empty |
| Legacy.ExtrasToTextSpec | app.js:71-77 | "" exactly when no extra is finite; with all extras finite, one line per extra joined by " / " |
| Legacy.EvaluateV1Spec | app.js:551-565 | every input must be finite, select or partial notwithstanding, and compute is then not consulted; any throw gives "計算エラー"; a non-finite value gives "計算結果が不正です…"; "" iff the value is finite |
| Legacy.ComputeTemplateV1 | app.js:551-565 | the loop with early return computes exactly the v1 result |
| Legacy.GenerationsAgree | app.js:551-565 | against main.js's `computeTemplate`: for a strict template with text inputs only and no primary output, and whose compute, if it throws, throws without a message, both generations give the same error and the same first value |
| Legacy.GenerationsSplitOnMessage | main.js:344-346 | with every input given, a throw with a non-empty message shows that message in main.js, while app.js (app.js:562-564) shows "計算エラー": the generations differ for any other message |
| Legacy.PipeV1Guard | app.js:138-145 | with every input given, v1 w_pipe is invalid iff D − 2t < 0 and succeeds otherwise |
| Legacy.LegacyApp.constructor | app.js:305-312 | the catalogue and the stored favourites, history and last inputs are loaded |
| Legacy.LegacyApp.ToggleFav | app.js:408-412 | the favourites become the toggled set |
| Legacy.LegacyApp.RenderList | app.js:344-357 | the list shown is the sections for the query put through `lower`, the haystack put through the same `lower` |
| Legacy.LegacyApp.OpenTemplate | app.js:417-433 | an unknown id changes nothing; otherwise the template becomes current and its fields are the prefill |
| Legacy.LegacyApp.SaveLastInputs | app.js:543-549 | only the text inputs' values are stored |
| Legacy.LegacyApp.Reset | app.js:511-519 | the defaults are stored; an unknown id leaves the current template and gives no fields; a known one becomes current with its prefill from the new last inputs, which for t's own inputs with distinct keys are exactly the default texts |
| Legacy.LegacyApp.SaveToHistory | app.js:480-507 | it saves iff the value is finite, with the v1 result text, as the capped push |
| Legacy.LegacyApp.DeleteHistory | app.js:646-650 | the history loses exactly the records with that id |
| Legacy.LegacyApp.ClearHistory | app.js:771-775 | the history becomes empty |
| Pipeline.VolumeConversions | templates/weights.js:124-134 | a volume normalises to mm³, cm³ and L in that order, each a thousandth of the one before |
| Pipeline.VolBoxEndToEnd | templates/weights.js:112-136 | with A, B and C given the three volumes of A·B·C are shown, otherwise "未入力…" |
| Pipeline.VolCylEndToEnd | templates/weights.js:138-161 | with d and L given the three volumes of π·d²/4·L are shown, otherwise "未入力…" |
| Pipeline.RoundBarEndToEnd | templates/weights.js:28-46 | with d and L given the weight for the selected material's density is shown, whatever the select holds |
| Pipeline.PlateEndToEnd | templates/weights.js:48-67 | with t, W and L given the weight t·W·L·1e-9·ρ·1000 for the selected material is shown; the select is exempt from the check |
| Pipeline.PipeDualEndToEnd | templates/weights.js:69-109 | the partial pipe template succeeds iff its compute returns, and each of its messages reaches the user unchanged |
| Pipeline.VcRpmEndToEnd | templates/machining.js:3-15 | with Vc and D given it succeeds iff D ≠ 0; a zero diameter shows "計算結果が不正です…" |
| Pipeline.FeedEndToEnd | templates/machining.js:17-59 | F = fz·z·rpm is shown, and the reverse template gives back fz from it |
| Pipeline.FeedPerToothEndToEnd | templates/machining.js:33-59 | the compute's own "数値を入力してください" never reaches the user; with all inputs given its guards decide, and a shown fz is non-negative and reproduces F |
| Pipeline.ArcEndToEnd | templates/machining.js:61-80 | with D and the angle given, π·D and its angle/360 share are shown, equal at 360 |
| Pipeline.TriRightEndToEnd | templates/coords.js:161-187 | the partial triangle template shows the solver's error as it is (never empty), or a, b, c, θ in that order |
| Pipeline.TriRightShowsTriangle | templates/coords.js:161-187 | a consistent triangle with side a left blank is shown back in full |
| Pipeline.CoordDistEndToEnd | templates/coords.js:189-207 | with both points given, a non-negative distance with d² = dx² + dy² is shown |
| Pipeline.PcdEndToEnd | templates/coords.js:230-253 | with all inputs given, a point on the pitch circle is shown |
| Pipeline.JGrooveEndToEnd | templates/coords.js:255-305 | the compute's own "数値を入力してください" never reaches the user; with α, R and RG given its guards decide |

## Left out

- IEEE-754 arithmetic: numbers are exact reals, so rounding, overflow to ±Infinity on huge inputs, and the exact 1e-12 tests on a double are not modelled. So the dead-code results about `solveRightTriangle` hold over exact reals only: with b = 1, c = 1e200 and a blank, `c*c - b*b` overflows, a becomes Infinity and the back-fill from c·cos θ runs; with a = b = 1e200 and c blank the "計算失敗" throw is reached. The model's NonFinite stands for NaN and ±Infinity together.
- Utils.FormatNum: `roundTo` and `toLocaleString` become the parameter `show`; only the "-" for non-finite numbers is stated.
- `parseFloat`: the parameter `parse`; its prefix grammar is not modelled.
- `toLowerCase`: the parameter `lower` of the two `RenderList` methods; Unicode case mapping (which can also change a string's length) is not modelled, and nothing is assumed of it.
- `Math.sqrt`, `sin`, `cos`, `tan`, `atan2`, `acos` and `asin`: parameters, with the laws in `Sound` assumed of them.
- The strict templates' computes, for inputs that are not all numbers, give NaN-valued results in the model, where JavaScript would coerce null to 0. The compute layer never calls them there (Shell.EvaluateSpec), so nothing visible depends on it.
- coord_angle: its angle comes from the abstract atan2, so only the input check applies to it; no property of the angle is stated.
- The J-groove geometry: only the expressions as written and their linear relations are modelled, not whether the tangent point is geometrically correct.
- `normalizeComputeResult` throwing on a null element of `others` or `extras` is not modelled: element entries are always objects, possibly with missing fields.
- app.js's catalogue: only `w_pipe` and its D − 2t guard are modelled, and the v1 class takes the catalogue as a parameter. Its other templates are not modelled. Five of them have no counterpart formula in main.js's catalogue: `feed_F` (f·rpm, where main.js's feed is fz·z·rpm), `time_from_F` (distance / F), `tap_drill` (nominal − pitch), `circumference` (π·D with no angle share) and `coord_rotate` (a rotation of a point).
- DOM rendering, event wiring, toasts, scrolling, CSS injection, `renderHistory` and the display part of `computeAndUpdate`: these are UI.
- localStorage persistence (`LS`): stored values are the class fields, given to the constructors.
- The service worker (sw.js), the clipboard and share: these are asynchronous browser plumbing.
- `cryptoRandomId`, `nowISO` and `fmtDate`: the id and timestamp are parameters of the save methods.
- The `settings.densityDefault` of main.js is read by the weight builder but used by no template, so the model's builders ignore it.
