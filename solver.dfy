/**
 * The solver itself, `findOptimalSettings`: a loop over column counts, each
 * running a binary search over font size that calls the page-count oracle,
 * with the running best answer updated in place. It is proved to compute
 * exactly what module SolverSpec describes, and to make exactly the calls
 * SolverSpec lists (returned as the ghost trace `calls`).
 */
module Solver {
  import opened Settings
  import opened SolverSpec

  /**
   * The binary search over font size at `cols` columns. It returns the best
   * size it found (minFontSize when nothing measured fitted) and, as a ghost
   * trace, the oracle calls it made.
   */
  method SearchFontSize(settings: CompactExportSettings, getPageCount: (int, int) -> int, cols: int)
    returns (optimalForThisCol: int, ghost columnCalls: seq<Measurement>)
    ensures optimalForThisCol == ColumnOutcome(settings, getPageCount, cols)
    ensures columnCalls == ColumnSearch(settings, getPageCount, cols).calls
    ensures settings.minFontSize <= optimalForThisCol
    ensures optimalForThisCol > settings.minFontSize ==>
      && Measurement(optimalForThisCol, cols, getPageCount(optimalForThisCol, cols)) in columnCalls
      && getPageCount(optimalForThisCol, cols) <= settings.maxPageCount
  {
    var low := settings.minFontSize;
    var high := settings.maxFontSize;
    optimalForThisCol := settings.minFontSize;
    columnCalls := [];

    while high - low > 4
      invariant Search(settings, getPageCount, cols, Bracket(low, high, optimalForThisCol)).final
        == ColumnSearch(settings, getPageCount, cols).final
      invariant columnCalls + Search(settings, getPageCount, cols, Bracket(low, high, optimalForThisCol)).calls
        == ColumnSearch(settings, getPageCount, cols).calls
      decreases high - low
    {
      var mid := Midpoint(low, high);
      var pages := getPageCount(mid, cols);
      columnCalls := columnCalls + [Measurement(mid, cols, pages)];
      if pages <= settings.maxPageCount {
        optimalForThisCol := mid;
        low := mid; // try larger
      } else {
        high := mid; // too large
      }
    }
    ColumnOutcomeIsMeasured(settings, getPageCount, cols);
  }

  method FindOptimalSettings(settings: CompactExportSettings, getPageCount: (int, int) -> int)
    returns (result: SolverResult, ghost calls: seq<Measurement>)
    ensures result == FindOptimal(settings, getPageCount).result
    ensures calls == FindOptimal(settings, getPageCount).calls
    ensures result.fontSize > settings.minFontSize ==>
      && Measurement(result.fontSize, result.columnCount, getPageCount(result.fontSize, result.columnCount)) in calls
      && getPageCount(result.fontSize, result.columnCount) <= settings.maxPageCount
    ensures (forall m :: m in calls ==> m.pages > settings.maxPageCount)
      <==> result == SolverResult(settings.minFontSize, settings.minColumns)
  {
    var bestFontSize := settings.minFontSize;
    var bestCols := settings.minColumns;
    calls := [];

    // Exhaustive search over columns
    var cols := settings.minColumns;
    while cols <= settings.maxColumns
      invariant settings.minColumns <= cols
      invariant cols <= settings.maxColumns + 1 || cols == settings.minColumns
      invariant Columns(settings, getPageCount, cols) == Progress(SolverResult(bestFontSize, bestCols), calls)
      decreases settings.maxColumns + 1 - cols
    {
      // Binary search for the largest font size that fits the page limit
      var optimalForThisCol, columnCalls := SearchFontSize(settings, getPageCount, cols);

      if optimalForThisCol > bestFontSize {
        bestFontSize := optimalForThisCol;
        bestCols := cols;
      }
      calls := calls + columnCalls;
      cols := cols + 1;
    }

    result := SolverResult(bestFontSize, bestCols);
    ResultIsMeasuredFit(settings, getPageCount);
    FallbackIffNothingFits(settings, getPageCount);
  }
}
