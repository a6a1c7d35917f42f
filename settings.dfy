/**
 * The search-relevant part of the plugin's configuration record
 * (`CompactExportSettings`) and its defaults.
 *
 * Font sizes are counted in eighths of a point: 64 stands for 8pt. The
 * solver only ever measures sizes on the 1/8-point grid, and every such size
 * in the plugin's range is an exact IEEE double, so an integer count of
 * eighths represents each font size the solver handles without error.
 */
module Settings {

  /** The fields of the configuration record that the solver reads. */
  datatype CompactExportSettings = CompactExportSettings(
    maxPageCount: int,
    minColumns: int,
    maxColumns: int,
    minFontSize: int,  // eighths of a point
    maxFontSize: int   // eighths of a point
  )

  /** The point size an eighths count stands for. */
  function Points(eighths: int): real
  {
    eighths as real / 8.0
  }

  /** The plugin's defaults: at most 2 pages, 1 to 3 columns, 8pt to 14pt. */
  const DefaultSettings := CompactExportSettings(
    maxPageCount := 2,
    minColumns := 1,
    maxColumns := 3,
    minFontSize := 64,
    maxFontSize := 112
  )

  /**
   * The defaults form a sensible search space: a positive page budget, a
   * non-empty column range, font bounds of 8pt and 14pt (both on the
   * 1/8-point grid, since they are eighths counts), and a font bracket wider
   * than the solver's 0.5pt stopping width.
   */
  lemma DefaultSettingsAreSensible()
    ensures DefaultSettings.maxPageCount >= 1
    ensures 1 == DefaultSettings.minColumns <= DefaultSettings.maxColumns == 3
    ensures Points(DefaultSettings.minFontSize) == 8.0
    ensures Points(DefaultSettings.maxFontSize) == 14.0
    ensures Points(DefaultSettings.maxFontSize) - Points(DefaultSettings.minFontSize) > 0.5
  {
  }
}
