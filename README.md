# Sentinel-2 NDWI analysis, modelled in Dafny

Sentinel_NDWI searches a public STAC catalog for a recent Sentinel-2 L2A scene
around a point and downloads the green (B03) and near-infrared (B08) bands over
a small box. It computes the Normalized Difference Water Index
`(green - nir) / (green + nir)` pixel by pixel, summarises the valid pixels and
reads the share of water pixels as one of four categories. A console menu
picks the point: a key of a small location table, or typed "lat, lon"
coordinates that are checked against the latitude and longitude ranges.

This project models the repository's own logic:

- the band math, the statistics, the bounding boxes, the scene and asset
  choice, and the workflow of `STACDownloader`;
- the location table, the analysis parameters and the date window of the
  configuration module;
- the menu, the two prompt loops, the analysis run and the interpretation of
  the console program.

Numbers are mathematical reals and integers. Dates are day numbers. Each
collaborator is a parameter:

- the catalog search: `SearchQuery -> seq<Item>`;
- the band download: `(href, box) -> Grid`;
- Python's `float()`: `string -> Option<real>`;
- today's date.

Modules, one per concern:

- `Wrappers`: `Option` and `Result`.
- `Text`: the ASCII behaviour of `str.strip`, `str.lower` and `str.split`.
- `Dates`: day-number windows.
- `Config`: `simple_config.py`.
- `BandMath`, `Statistics` and `Stac`: `stac_downloader.py`.
- `Cli`: `simple_main.py`.

The console program is imperative in the source, so it is modelled that way:

- A `while True` prompt loop is the method `PromptUntilDone`. It runs over the
  remaining input lines and is proved equal to the recursive specification
  `RePrompt`.
- The main menu is the methods `ReadMenu` and `RunMenu`, proved equal to
  `MenuLoop`.
- What each input line does is a step function: `ReadLocationKey`,
  `ReadCoordinates` and `ReadChoice`. Each step function has the branches of
  the loop body it models.
- The lemmas state what the loops promise: which line ends them, what they
  report for the lines before it, and what they hand to `run_analysis`.

Some behaviour of the code is easy to miss, and the model keeps it as written:

- `calculate_ndwi` does not compare the shapes of the two bands. `CalculateNdwi`
  therefore requires equal shapes. The workflow reports any shape difference as
  `ShapeMismatch`, which stands for the error numpy raises.
- The filter `np.isfinite` keeps the `-9999` nodata value written into the
  NDWI file's profile. The model keeps every finite sample, as the code does.
- The analysis run hard-codes a 2.0 km radius and a 20 % cloud limit, and does
  not read them from `ANALYSIS_CONFIG`. The values agree, and
  `RunParametersMatchConfig` states that. The search limit of 5 is the default
  of `search_sentinel2`'s `limit` parameter.
- When `analyze_ndwi` returns its "no valid data" record, `run_analysis` fails
  on `stats['mean']` with a KeyError. Its own `except` catches that, so the
  model reports `Failed(StatisticsMissing)`.

## Model

| member | source | states |
|---|---|---|
| Config.GetLocation | simple_config.py:50-55 | succeeds exactly for keys of the table and returns that entry; any other key gives the not-found error carrying the key and the list of available keys |
| Config.DefaultLocationIsNewYork | simple_config.py:50 | the default key finds the "New York City" entry |
| Config.LocationKeysAreTheTable | simple_config.py:9-40 | the key list names every table key exactly once and nothing else |
| Config.LocationsInRange | simple_config.py:9-40 | every stored location has its latitude in [-90, 90] and its longitude in [-180, 180], the ranges custom input is checked against |
| Config.GetDateRange | simple_config.py:57-65 | the window ends today; an omitted `days_back` falls back to ANALYSIS_CONFIG's 30; the start is exactly `days_back` days earlier; and start <= end exactly when `days_back` is omitted or non-negative |
| Config.DefaultDateRange | simple_config.py:57-63 | the default window is [today - 30, today] |
| Dates.WindowEndingOn | stac_downloader.py:203-208 | the window of `daysBack` days ends on today; it is ordered exactly when `daysBack >= 0` |
| Stac.GetRecentDates | stac_downloader.py:203-208 | the window ends today and spans `days_back` days |
| Stac.DefaultRecentDates | stac_downloader.py:203 | with the argument omitted the window is [today - 30, today] |
| BandMath.PixelNdwi | stac_downloader.py:131-134 | 0 where green + nir is 0; elsewhere the value times green + nir is green - nir |
| BandMath.RowNdwi | stac_downloader.py:131-134 | keeps the row length; each value is 0 where green + nir is 0 and (green - nir) / (green + nir) elsewhere |
| BandMath.CalculateNdwi | stac_downloader.py:131-134 | for equal band shapes, the NDWI grid has the green band's shape and the elementwise rule: 0 where the denominator is 0, the normalized difference elsewhere |
| BandMath.PixelRange | stac_downloader.py:123-134 | for non-negative reflectances one pixel's index lies in [-1, 1] |
| BandMath.PixelWater | stac_downloader.py:131-134 | for non-negative reflectances a pixel is water (index > 0) exactly when green exceeds near-infrared |
| BandMath.NdwiRange | stac_downloader.py:123-134 | for non-negative bands every NDWI value lies in [-1, 1] |
| BandMath.ExampleThirds | stac_downloader.py:131-134 | green [[4, 4]] and nir [[2, 2]] give [[1/3, 1/3]] |
| BandMath.ExampleZeroDenominator | stac_downloader.py:132-134 | green [[0]] and nir [[0]] give [[0]] |
| Statistics.FiniteValues | stac_downloader.py:217 | a value is kept exactly when the row holds it as a finite sample, and never more values than the row holds |
| Statistics.FiniteValuesAppend | stac_downloader.py:217 | filtering joined rows joins the filtered rows, so the filter keeps the row's order |
| Statistics.FiniteValuesSingle | stac_downloader.py:217 | a finite sample passes with its value; a non-finite one is dropped |
| Statistics.FiniteValuesMultiplicity | stac_downloader.py:217 | each value occurs in the result exactly as often as the row holds it as a finite sample |
| Statistics.FiniteValuesCount | stac_downloader.py:217 | the result holds exactly one value per finite sample of the row |
| Statistics.ValidData | stac_downloader.py:217 | a value is kept exactly when some row holds it as a finite sample |
| Statistics.ValidDataAppend | stac_downloader.py:217 | row-major order: the rows of `a` then those of `b` give the valid data of `a` followed by that of `b` |
| Statistics.ValidDataSingle | stac_downloader.py:217 | a single row gives its finite values |
| Statistics.ValidDataMultiplicity | stac_downloader.py:217 | each value occurs in the valid data exactly as often as grid positions hold it as a finite sample |
| Statistics.Min | stac_downloader.py:231 | the minimum is one of the samples and bounds them all from below |
| Statistics.Max | stac_downloader.py:232 | the maximum is one of the samples and bounds them all from above |
| Statistics.CountPositive | stac_downloader.py:223 | the water count never exceeds the number of samples |
| Statistics.CountPositiveIsIndexCount | stac_downloader.py:223 | the water count is the number of positions holding a value strictly above 0 |
| Statistics.MeanBetweenMinAndMax | stac_downloader.py:229-232 | the mean of a non-empty sample lies between its minimum and its maximum |
| Statistics.SquaredDeviationsNonNegative | stac_downloader.py:230 | the sum of squared deviations is never negative |
| Statistics.Summarize | stac_downloader.py:222-238 | count == total_pixels == number of valid samples; water_pixels is the number of values > 0, at most total_pixels; water_percentage == 100 * water_pixels / total_pixels, within [0, 100]; mean == sum / count and variance == sum of squared deviations from the mean / count; min <= mean <= max, min and max attained and bounding every sample; variance >= 0 |
| Statistics.AnalyzeNdwi | stac_downloader.py:210-238 | the "No valid data found" error exactly when no sample is finite; otherwise the summary of the finite samples |
| Statistics.ToSamples | stac_downloader.py:149-150 | the NDWI grid read back from its file has the same shape, every sample finite and equal to the computed value |
| Statistics.ValidDataOfComputedGrid | stac_downloader.py:213-217 | every pixel of a computed NDWI grid is valid data |
| Statistics.ValidDataFromGrid | stac_downloader.py:213-217 | every valid value is one of the grid's pixels |
| Statistics.AnalyzeComputedNdwi | stac_downloader.py:131-134 | the statistics of computed NDWI: "no valid data" exactly when the bands have no pixel; otherwise every pixel is counted, and for non-negative bands min >= -1 and max <= 1 |
| Statistics.ExampleAllWater | stac_downloader.py:222-225 | two pixels of NDWI 1/3 are two water pixels out of two, 100 % |
| Stac.BoxAround | stac_downloader.py:79-82 | the box is `2 * half` wide on both axes and centred on the point |
| Stac.SearchBox | stac_downloader.py:41-42 | the search box is centred on the point, proper, and 0.02 degree wide on both axes |
| Stac.BufferDegrees | stac_downloader.py:77 | the buffer in degrees times 111 is the buffer in km |
| Stac.SubsetBox | stac_downloader.py:77-82 | symmetric about the point; width times 111 is twice the buffer in km; equal spans on both axes; proper exactly when the buffer is positive; contains the point exactly when the buffer is not negative |
| Stac.SubsetBoxOf111Km | stac_downloader.py:77-82 | a 111 km buffer spans exactly 2 degrees per axis |
| Stac.SearchQueryFor | stac_downloader.py:26-51 | the query names the "sentinel-2-l2a" collection, intersects exactly the 0.01-degree search box around the point, uses the given window, and carries the strict cloud-cover bound and the limit, 10 and 5 when omitted |
| Stac.GetNdwiBands | stac_downloader.py:58-66 | succeeds exactly when the item has both "green" and "nir" assets and returns their hrefs in that order; a missing "green" is reported before a missing "nir" |
| Stac.SelectItem | stac_downloader.py:172-176 | the error exactly for an empty search result; otherwise the first item |
| Stac.DownloadAndCalculateNdwi | stac_downloader.py:157-201 | "No Sentinel-2 data found" exactly when the search answers nothing; otherwise it succeeds exactly when `items[0]` has green, nir and visual assets and the two bands have equal shapes; its errors come in source order: missing green, then missing nir, then a shape mismatch, then missing visual; on success it downloaded each asset over the buffer box around the point, and its NDWI is the band math of the two bands |
| Text.Strip | simple_main.py:32 | the result neither starts nor ends with white space and is no longer than the input |
| Text.StripPadded | simple_main.py:94 | stripping white-space padding off an unpadded string gives that string back |
| Text.StripIdempotent | simple_main.py:94-98 | stripping twice is stripping once |
| Text.Lower | simple_main.py:64 | keeps the length, lowers each letter and leaves no upper-case letter |
| Text.LowerIdempotent | simple_main.py:64 | lower-casing twice is lower-casing once |
| Text.Split | simple_main.py:95 | one more part than separators, and no part contains the separator |
| Text.JoinSplit | simple_main.py:95 | joining the parts with the separator gives the string back |
| Text.SplitJoin | simple_main.py:95 | splitting a join of separator-free parts gives the parts back |
| Cli.ReadLocationKey | simple_main.py:64-76 | one pass of the key loop's body; its contract is stated by `ReadLocationKeySpec` |
| Cli.RePrompt | simple_main.py:63-76 | a prompt loop reads at most the lines there are, and all of them when nothing is accepted |
| Cli.RePromptFirstDone | simple_main.py:92-115 | a prompt loop stops at the first accepted line; every earlier line was retried and its report comes out in order |
| Cli.PromptUntilDone | simple_main.py:63-76 | the `while True` re-prompt loop computes exactly `RePrompt` of its input |
| Cli.ReadLocationKeySpec | simple_main.py:64-76 | a stripped, lower-cased "list" lists again; otherwise a table key selects its entry; any other key is reported as not found |
| Cli.KeyIgnoresPaddingAndCase | simple_main.py:64 | surrounding white space and letter case do not change how a key reads |
| Cli.KeyLoopSelectsFromTable | simple_main.py:63-76 | the location selected is the table entry of the last key read |
| Cli.KeyLoopRetries | simple_main.py:66-76 | every earlier line was "list", answered by the listing, or an unknown key, answered by its error |
| Cli.UsePredefinedLocation | simple_main.py:63-76 | the key loop of option 1 equals `KeyLoop` of the input |
| Cli.ReadCoordinates | simple_main.py:94-112 | one pass of the coordinate loop's body; its contract is stated by `ReadCoordinatesSpec` |
| Cli.ReadCoordinatesSpec | simple_main.py:94-112 | a line is accepted exactly when it splits into two parts that parse to an in-range latitude and longitude, giving (first, second); malformed input is reported as such; the latitude check comes first |
| Cli.AcceptedHasOneComma | simple_main.py:95 | an accepted line holds exactly one comma |
| Cli.TypedCoordinates | simple_main.py:94-108 | "lat,lon" with white space around and inside the fields is read field by field, the first as the latitude |
| Cli.CoordinateLoopAccepts | simple_main.py:92-108 | the loop accepts only in-range coordinates, read from the last line it consumed |
| Cli.UseCustomCoordinates | simple_main.py:92-115 | the coordinate loop of option 2 equals `CoordinateLoop` of the input |
| Cli.ReadChoice | simple_main.py:32-48 | the menu's reading of one line; its contract is stated by `ReadChoiceSpec` |
| Cli.ReadChoiceSpec | simple_main.py:32-48 | each option is chosen by exactly its digit, white space aside; every other input is invalid |
| Cli.FromKey | simple_main.py:78-83 | a selected location goes to the analysis with its longitude and latitude and under its own name; without one, input has ended |
| Cli.FromCoordinates | simple_main.py:116-120 | accepted coordinates go to the analysis with the typed longitude as longitude and the typed latitude as latitude; without them, input has ended |
| Cli.Menu | simple_main.py:23-55 | the menu reads at most the lines there are, and all of them when it ends for lack of input |
| Cli.ReadMenu | simple_main.py:23-48 | reads up to the first line that leaves the menu; every earlier line re-showed the menu with its report |
| Cli.RunMenu | simple_main.py:23-55 | the menu loop equals `MenuLoop` of the input |
| Cli.MenuLoopingPrefix | simple_main.py:40-48 | "3" and invalid lines only report and show the menu again |
| Cli.MenuExitsOnlyOnFour | simple_main.py:43-45 | the program exits only on a line chosen as option 4, saying goodbye last |
| Cli.MenuLoopExitsOnlyOnFour | simple_main.py:32-45 | `main` exits only on a line that strips to "4" |
| Cli.MenuAnalysesValidCoordinates | simple_main.py:63-120 | every analysis the menu starts is at a latitude in [-90, 90] and a longitude in [-180, 180] |
| Cli.PredefinedRouteSelects | simple_main.py:63-83 | the predefined path analyses the table entry of the last key it read |
| Cli.CustomRouteReads | simple_main.py:92-120 | the custom path analyses the coordinates of the last line it read, the first field as the latitude |
| Cli.CustomAnalysisTakesLatitudeFirst | simple_main.py:32-120 | when "2" is chosen, after any number of "3" or invalid lines, the analysis reads "lat, lon" and is called with (lon, lat), the order swapped once |
| Cli.PredefinedAnalysisUsesTable | simple_main.py:32-83 | when "1" is chosen, after any number of "3" or invalid lines, the analysis uses the table entry of the last key typed, longitude first, under its own name |
| Cli.RunParametersMatchConfig | simple_main.py:146-147 | the hard-coded radius and cloud limit equal ANALYSIS_CONFIG's, and the default search limit equals its `limit` |
| Cli.Interpret | simple_main.py:176-183 | every percentage falls in exactly one category: > 50 high, (20, 50] moderate, (5, 20] low, <= 5 very low |
| Cli.InterpretMonotone | simple_main.py:176-183 | a higher percentage never reads as less water |
| Cli.InterpretByPixels | simple_main.py:176-183 | in pixel counts, high means more than half the valid pixels are water, at least moderate more than a fifth, at least low more than a twentieth |
| Cli.RunAnalysis | simple_main.py:122-191 | fails with "no data" exactly when the search finds nothing; any workflow error is reported with its cause; fails on statistics exactly when the bands have no pixel; on completion its statistics are `analyze_ndwi` of the computed NDWI, every pixel is counted, and the interpretation is that of its water percentage |
| Cli.CompletedInterpretation | simple_main.py:156-183 | a completed run reads "high" exactly when more than half its pixels are water and "very low" exactly when at most a twentieth are |
| Cli.CompletedAnalysisInRange | simple_main.py:156-164 | for non-negative bands a completed run reports -1 <= min <= mean <= max <= 1 and a water percentage in [0, 100] |
| Cli.RunMain | simple_main.py:11-55 | the program runs the menu and then the analysis exactly when the menu chose a location |

## Left out

- The catalog client (`Client.open`, `client.search`): network I/O through a foreign library. The search is the parameter `catalog`, and the model states the query it receives.
- Raster I/O: `rioxarray.open_rasterio`, `rio.clip_box`, `to_raster` and the `rasterio` reads and writes. The band grids are what the parameter `fetch` returns for an href and a box. The NDWI file's round trip is `ToSamples`.
- float32 rounding, NaN and infinities: values are reals. A raster sample is either a finite real or `NonFinite`, as `np.isfinite` sees it.
- BandMath.CalculateNdwi: requires equal band shapes. numpy broadcasting of unequal but compatible shapes is not modelled; the workflow reports every shape difference as `ShapeMismatch`.
- Statistics.Summarize: reports the population variance, the square of `np.std`, because the square root is not modelled.
- `datetime.now()`, `strftime` formatting and timestamped file names: today is a day number given as input, and a window is a pair of day numbers.
- Python's `float()`: the parameter `parse`. The model assumes nothing about it beyond its result.
- Printing, `sys.exit`, KeyboardInterrupt, and the failure messages' text: console I/O. Reports are `Event` values, and exiting is the `Exited` outcome.
- End of input: Python's `input()` raises EOFError, which the generic handlers catch, so the source prompts forever. The model ends the loop with no value, or the `InputEnded` outcome, once the lines run out.
- Unicode: `strip` and `lower` are modelled on ASCII white space and ASCII letters only.
- The custom location's name: the `f"Custom Location (...)"` text is `CustomPlace(lat, lon)`, without the 4-decimal formatting.
- `plot_results`, the printed file list and file sizes: presentation and filesystem only.
- DownloadAndCalculateNdwi: `catalog` and `fetch` always answer. Failures of the collaborators, such as the network, `open_rasterio`, a `clip_box` outside the scene or `to_raster`, are not modelled; in the source they raise out of the workflow.
- RunAnalysis: never reports a collaborator failure. In the source, a failure of `STACDownloader()`, of the workflow's collaborators or of `plot_results` (simple_main.py:169) lands in the `except` at line 185. A plotting failure also means the interpretation is never printed.
- `print_available_locations`, `print_config` and `STACDownloader.main`'s example run: printing and a demonstration script with none of the repository's own logic.
- `STACDownloader.__init__`: opens the client and sets two fields that are never updated; the catalog parameter stands for it.
