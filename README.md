# Compact export layout solver, modelled in Dafny

The Obsidian "compact export" plugin fits a note onto a fixed number of printed
pages. Its solver, `findOptimalSettings`, tries every column count from
`minColumns` to `maxColumns`. For each one it binary-searches the font size
between `minFontSize` and `maxFontSize`, asking a page-count oracle how many
pages each candidate produces. It keeps the column count whose best fitting
font size is strictly larger than any seen before. When nothing fits, the
answer stays at `(minFontSize, minColumns)`.

This project models that solver and the configuration record it reads:

- `settings.dfy`, module `Settings`: the search fields of `CompactExportSettings`
  and the plugin's defaults `DefaultSettings`.
- `solver_spec.dfy`, module `SolverSpec`: the search as functions (`Search` for
  one column count, `Columns` and `FindOptimal` for the column loop), the
  measurements each makes, and the lemmas about them.
- `solver.dfy`, module `Solver`: the solver as imperative methods with loops.
  They are proved to compute exactly what `FindOptimal` describes and to make
  exactly the oracle calls it lists.

Font sizes are integers counting eighths of a point (64 stands for 8pt). Every
midpoint the source measures is snapped to a multiple of 0.125, so every size it
measures is such a count. In this encoding the snapped midpoint
`Math.round((low + high) * 0.5 * 8) * 0.125` is `(low + high + 1) / 2` eighths.
The stopping test `high - low > 0.5` is `high - low > 4`. `SnapMatchesSource`
proves both identities against real-number arithmetic when the bounds lie on the
1/8-point grid. Dafny's integer division rounds down for the positive divisor 2,
as `Math.round(x)` equals `floor(x + 0.5)`, so the encoding holds for negative
sizes too. The model
therefore puts no sign condition on the font bounds. The source checks none
either.

The oracle is a parameter `getPageCount: (int, int) -> int` taking a font size
in eighths and a column count. The source awaits each call before making the
next, so the calls form a sequence. The methods return that sequence as a ghost
trace `calls`, so that lemmas can speak about what was measured.

The solver always returns an answer: it never returns null and reports no
validity flag. The 0.5pt stopping width and the 1/8-point grid are fixed in the
code (src/solver.ts:24-26), and no field of the configuration is checked. The
size `minFontSize` itself is never passed to the oracle, so the fallback answer
`(minFontSize, minColumns)` is not known to fit. `FallbackIffNothingFits` states
exactly when that fallback is returned: when no measured size fitted at any
column count.

## Model

| member | source | states |
|---|---|---|
| `Settings.DefaultSettingsAreSensible` | src/settings.ts:19-24 | the defaults allow at least one page (2), have a non-empty column range (1 to 3), have font bounds of exactly 8pt and 14pt on the 1/8 grid, and give a font bracket wider than the 0.5pt stopping width |
| `SolverSpec.Round` | src/solver.ts:26 | `Math.round`: the result is within half a unit of its argument, with halves going upward |
| `SolverSpec.Midpoint` | src/solver.ts:25-26 | the snapped midpoint is the eighths count nearest the exact midpoint, ties going up, and it lies strictly inside any bracket at least two eighths wide |
| `SolverSpec.SnapMatchesSource` | src/solver.ts:24-26 | for bracket ends on the 1/8 grid, rounding 8 times the exact midpoint gives `Midpoint`, the size measured is that count times 0.125, and `high - low > 0.5` holds exactly when the width exceeds 4 eighths |
| `SolverSpec.SearchBracket` | src/solver.ts:20-35 | the binary search ends with a bracket at most 0.5pt wide and inside the starting one; `low <= high` is kept; `low` only moves to a size that fitted and `high` only to one that did not; `optimalForThisCol` is the starting value until `low` moves and is `low` afterwards |
| `SolverSpec.SearchCalls` | src/solver.ts:24-27 | the search calls the oracle exactly when the bracket is wider than 0.5pt; every call is at a size strictly inside the starting bracket, at the search's column count, and records the oracle's answer |
| `SolverSpec.SearchKeepsLastFit` | src/solver.ts:22-34 | the search's best size is the size of its last call that fitted, and no later call fitted; if no call fitted it is the starting value |
| `SolverSpec.ColumnOutcomeIsMeasured` | src/solver.ts:20-35 | one column count's best size is at least `minFontSize`; it exceeds `minFontSize` exactly when some call at that column count fitted; when it does, it is a measured size that fitted |
| `SolverSpec.HalvingsIsLogarithmic` | src/solver.ts:24-26 | a bracket of at most 2^k times the 0.5pt stopping width needs at most k bisections, so `Halvings(w)` is at most ceil(log2(w / 0.5pt)) |
| `SolverSpec.SearchCallBound` | src/solver.ts:24-27 | one binary search makes at most `Halvings(high - low)` oracle calls |
| `SolverSpec.CallsOfColumns` | src/solver.ts:17-27 | the calls of the column loop are exactly the calls made by each column count's binary search, for the column counts tried |
| `SolverSpec.ColumnsCallCount` | src/solver.ts:17-27 | after n column counts the loop has made at most n times `Halvings(maxFontSize - minFontSize)` calls, and at least n when the font bracket is wider than 0.5pt |
| `SolverSpec.SelectionIsFirstMaximum` | src/solver.ts:37-40 | the answer's size is at least `minFontSize` and at least every column count's best size; every smaller column count did strictly worse, so ties go to fewer columns; a size of `minFontSize` comes with `minColumns`; a larger size is the best size of the returned column count |
| `SolverSpec.ResultInRange` | src/solver.ts:13-43 | the answer's size is at least `minFontSize`, and at most `maxFontSize` when `minFontSize <= maxFontSize`; its column count is at least `minColumns`, and at most `maxColumns` when `minColumns <= maxColumns` |
| `SolverSpec.CallsWithinBounds` | src/solver.ts:17-27 | every oracle call during the search is at a size strictly between the font bounds and at a column count within the column bounds, and records the oracle's answer |
| `SolverSpec.ResultIsMeasuredFit` | src/solver.ts:29-40 | an answer above `minFontSize` was passed to the oracle at the returned column count during the search, and its page count was within `maxPageCount` |
| `SolverSpec.FallbackIffNothingFits` | src/solver.ts:13-43 | the answer is exactly `(minFontSize, minColumns)` if and only if no oracle call at any column count fitted |
| `SolverSpec.TotalCallBound` | src/solver.ts:17-27 | the whole search makes at most `(maxColumns - minColumns + 1)` times `Halvings(maxFontSize - minFontSize)` calls, and, when the font bracket is wider than 0.5pt, at least one call at every column count from `minColumns` to `maxColumns`, so at least one call per column count in total |
| `SolverSpec.DefaultSearchCallCount` | src/settings.ts:20-24 | under the defaults every column count is measured at least once, and the whole search makes between 3 and 12 oracle calls |
| `SolverSpec.ResultIsNearOptimal` | src/solver.ts:19-40 | if the page count never falls as the font grows, then at no column count does any size more than 0.5pt above the answer, up to `maxFontSize`, fit |
| `SolverSpec.TenPointColumn` | src/solver.ts:20-35 | example: with a one-page budget, 8pt to 14pt, and content that fits only up to 10pt, one column count measures 11, 9.5, 10.25 and 9.875pt and keeps 9.875pt |
| `SolverSpec.TieGoesToFewerColumns` | src/solver.ts:37-40 | example: in that setting one and two columns tie at 9.875pt, and the answer is one column |
| `Solver.SearchFontSize` | src/solver.ts:19-35 | the inner `while` loop returns the best size `ColumnOutcome` describes and makes exactly the calls `ColumnSearch` lists; the size is at least `minFontSize`, and a larger one was measured and fitted |
| `Solver.FindOptimalSettings` | src/solver.ts:9-44 | returns exactly `FindOptimal`'s answer and makes exactly its calls; an answer above `minFontSize` was measured at the returned column count and fitted; the answer is the fallback `(minFontSize, minColumns)` exactly when no call fitted |

## Left out

- src/main.ts is not part of this model. It holds the plugin's commands, notices, settings loading, print-style CSS and the print trigger. None of these is part of the search.
- The real page-count oracle renders the note and measures it asynchronously. It is modelled as an arbitrary function parameter.
- A failing oracle: `await getPageCount(mid, cols)` (src/solver.ts:27) re-throws a rejected promise, so `findOptimalSettings` rejects without an answer. The model's oracle is a total function that always returns a page count, so this abort path is not modelled.
- The configuration's types: the source's settings fields and page counts are JavaScript numbers. The model gives the column counts, the page budget and the page counts the type `int`, and gives the font bounds as whole eighths of a point. Bounds the source accepts but the model cannot express are left out: a fractional column count or page budget, and font bounds off the 1/8-point grid such as 8.3pt. The loop starts `low` and `high` at those raw bounds (src/solver.ts:20-21), and the model covers only bounds that start on the grid.
- Floating point: font sizes are exact eighths counts. The JavaScript doubles agree with this only when the font bounds start on the 1/8-point grid (every midpoint is then snapped onto it) and the sizes stay within the range where doubles are exact. That range covers every practical font size.
- The settings fields `lineHeight`, `columnGap`, `pageMargin` and `makeBlockFormulasInline` are left out, because only the print CSS reads them.
- The inline nesting of the two loops: the source runs the inner `while` loop inside `findOptimalSettings`, while the model makes it a separate method, `Solver.SearchFontSize`, called once per column count with the same variables, branches and order of calls. This keeps each proof small.
- The source never checks that the page count grows with the font size. That assumption appears only as a hypothesis of `ResultIsNearOptimal`.
