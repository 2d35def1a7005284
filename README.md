# RMS station core, modelled in Dafny

This project models the core of the RMS meteor-station software:

- **Configuration reader** (`RMS/ConfigReader.py`). The station configuration starts from built-in defaults. Each section of the INI file then overwrites it, in a fixed order. Four pieces are modelled:
  - the frame geometry and its region of interest;
  - the normalisation of detection thresholds;
  - the platform-dependent choices;
  - the exceptions each section can raise.
- **Astrometry refinement** (`RMS/Astrometry/ACFnew.py`). This has three parts:
  - `matchStarsResiduals` matches detected stars to projected catalog stars and computes the cost of a plate solution.
  - The two cost wrappers hand that cost to the minimiser.
  - `autoCheckFit` selects and samples exposures, then refines the platepar in place over a coarse-to-fine schedule of matching radii.
- **Flat-field generation** (`Utils/MakeFlat.py`). This covers:
  - finding the CALSTARS file;
  - the two filters that select FF files;
  - the minimum-count and two-hour checks;
  - the 200-file sample;
  - the batches of ten that are median-combined.
- **Plate solver output parsing** (`FieldSolver.format_results`). The last centre line and the last rotation line decide the one result put on the queue.
- **CALSTARS writer** (`makeCALSTARS`). It writes the exact line layout of the file: a ten-line header, then one block per image, then a closing line.

## Modules

| Module | Models |
|---|---|
| `Wrappers` | `Option` and `Result`. |
| `Strings` | The Python string operations the core relies on: `in`, `replace`, `posixpath.join`, `str()`, `split()`, `split(sep)`, `lower` and `sorted`. |
| `OrderedDict` | Python's insertion-ordered `dict`: assignment and the dictionary comprehension. |
| `StarMatcher` | The nearest-neighbour star matching. |
| `Residuals` | `matchStarsResiduals` and the cost wrappers. |
| `AutoFit` | `autoCheckFit`. |
| `ConfigReader` | `ConfigReader.py`. |
| `MakeFlat` | `makeFlat`. |
| `FieldSolver` | `format_results`. |
| `Calstars` | `makeCALSTARS`. |

### Where the source updates state in place

Where the source updates state in place, the model does the same, with a method proved against a function that specifies it:

- `Config` is a class whose section parsers assign its fields.
- `Platepar` is a class that the fit updates.
- The result queue and the open star file are classes.
- The disk is a map from paths to file contents.

### Given rather than computed

Several computations are given to the model, not computed by it:

- the floating-point numerics: projection, catalog subset, square root, minimiser, median and the 0-255 stretch;
- the file reading and the FF-name test;
- the INI parser's tokenising and the `int()`/`float()` conversions;
- the host: `sys.platform`, `os.uname()[4]`, `os.path.expanduser`, `os.sep` and `os.path.join`.

These are given as function-valued parameters. Everything the core decides on its own is modelled as the source writes it: branches, loop order, thresholds and exceptions.

### Quirks modelled as written

The model keeps these source quirks as they are:

- **`data_dir`.** A `data_dir` of `~` alone, or an empty one, raises `IndexError` (`RMS/ConfigReader.py:325-331`).
- **`min_lines`.** The `min_lines` branch reads `max_lines` (`RMS/ConfigReader.py:589-590`). A file with `min_lines` but without `max_lines` raises `NoOptionError`.
- **macOS.** `'win' in sys.platform` also matches `darwin`, so macOS takes the Windows settings (`RMS/ConfigReader.py:34`).
- **Nothing matched.** When nothing matched, `matchStarsResiduals` returns the bare cost 9999.0 even when the count is asked for. The three-name unpacking in `autoCheckFit` then raises (`RMS/Astrometry/ACFnew.py:204-205, 341, 415`).
- **CALSTARS search.** The search loop leaves the last listed name in `calstars_file` when no name looks like a CALSTARS file. It gives `None` only for an empty folder (`Utils/MakeFlat.py:40-47`).
- **Batches of ten.**
  - The batching loop skips the file of every eleventh iteration.
  - It never combines the last, incomplete batch.
  - With ten files or fewer, `median_list[0]` raises `IndexError` (`Utils/MakeFlat.py:128-169`).

### Interpreter

`RMS/ConfigReader.py` imports `ConfigParser` before `configparser`, so the source is written for Python 2.7 first. The model follows Python 2.7 throughout:

- `/` on two integers floors, so `normalizeParameter` rounds down at each of its three divisions (`RMS/ConfigReader.py:250`).
- `random.sample` on a dictionary samples its keys (`RMS/Astrometry/ACFnew.py:322`).
- `split()` on an option's text splits at the byte-string white space only: tab, line feed, vertical tab, form feed, carriage return and space (`RMS/ConfigReader.py:489-495`).
- The plate solver's output is a byte string, which the `str` patterns can search (`RMS/Astrometry/FieldSolver.py:100-107`).

Python 2 does not define the iteration order of a `dict`. The model iterates dictionaries in insertion order.

## Model

| member | source | states |
|---|---|---|
| StarMatcher.Nearest | RMS/Astrometry/ACFnew.py:114-140 | No candidate exactly when there are no in-image catalog stars. Otherwise the chosen position is a candidate, reported with its distance. |
| StarMatcher.NearestIsMinimum | RMS/Astrometry/ACFnew.py:123-140 | The scan with a strict `<` picks a candidate no farther than any other, and strictly closer than every candidate before it. |
| StarMatcher.NearestIsFirstMinimum | RMS/Astrometry/ACFnew.py:123-140 | Conversely, the first closest candidate is the one chosen. |
| StarMatcher.DistanceNonNegative | RMS/Astrometry/ACFnew.py:134 | The Euclidean distance is never negative. |
| StarMatcher.Accept | RMS/Astrometry/ACFnew.py:141-143 | An image star is accepted exactly when it has a nearest candidate closer than the matching radius. |
| StarMatcher.MatchSpec | RMS/Astrometry/ACFnew.py:114-148 | There are at most as many matches as image stars, each names a real image star, and they are in image-star order. |
| StarMatcher.MatchSpecSound | RMS/Astrometry/ACFnew.py:118-143 | Every match pairs an accepted image star with its nearest catalog star, at their distance. |
| StarMatcher.MatchDistanceBounds | RMS/Astrometry/ACFnew.py:142-143 | Every match distance is in `[0, max_radius)`. |
| StarMatcher.MatchedIffAccepted | RMS/Astrometry/ACFnew.py:118-143 | An image star appears among the matches if and only if it is accepted. |
| StarMatcher.Within | RMS/Astrometry/ACFnew.py:142 | The kept matches come from the list and are all below the radius. |
| StarMatcher.MatchRadiusMonotone | RMS/Astrometry/ACFnew.py:142-148 | Matching with a smaller radius gives exactly the matches of the larger radius whose distance is below the smaller one. |
| StarMatcher.MatchStars | RMS/Astrometry/ACFnew.py:114-148 | The double loop over image stars and catalog candidates returns exactly the specified matches. |
| Residuals.InImageIndices | RMS/Astrometry/ACFnew.py:96-98 | The good indices are exactly the projected stars with `0 <= x < X_res` and `0 <= y < Y_res`, in increasing order and without repeats. |
| Residuals.MatchedStars | RMS/Astrometry/ACFnew.py:73-162 | Every kept exposure has at least `min_matched_stars` matches, and as many distances as matched stars. No more exposures are kept than the dictionary holds. |
| Residuals.MatchedStarsFromEntries | RMS/Astrometry/ACFnew.py:151-162 | Every kept exposure is the kept form (date, matched image stars, distances) of a dictionary entry with at least `min_matched_stars` matches. |
| Residuals.MatchedStarsKeepsQualifying | RMS/Astrometry/ACFnew.py:151-162 | Conversely, every dictionary entry with at least `min_matched_stars` matches is kept, in its kept form. |
| Residuals.MatchedStarsAppend | RMS/Astrometry/ACFnew.py:73-183 | The kept exposures of a dictionary split in two are those of the first part followed by those of the second, so they keep the dictionary's order. |
| Residuals.Summary | RMS/Astrometry/ACFnew.py:202-223 | With nothing matched the result is the bare 9999.0, whatever `ret_nmatch` says. Otherwise it is the count, the mean distance and the cost `avg^2 / sqrt(n+1)` when asked for, and the cost alone if not. |
| Residuals.MatchStarsResiduals | RMS/Astrometry/ACFnew.py:33-223 | The per-exposure loop and the pooling loop compute exactly the specified residuals. |
| Residuals.ExposureDistancesBounded | RMS/Astrometry/ACFnew.py:142-155 | One exposure's match distances all lie in `[0, max_radius)`. |
| Residuals.PooledDistanceBounded | RMS/Astrometry/ACFnew.py:180-186 | Every pooled distance lies in `[0, max_radius)`. |
| Residuals.SummaryBounds | RMS/Astrometry/ACFnew.py:202-210 | For distances in `[0, m)`, the mean is in `[0, m)` and the cost is not negative. |
| Residuals.ResidualStatsBounds | RMS/Astrometry/ACFnew.py:202-220 | When the count is asked for, statistics come back exactly when something matched, and the sentinel otherwise. A reported count is positive, the mean is below the radius and the cost is not negative. |
| Residuals.CostModesAgree | RMS/Astrometry/ACFnew.py:219-223 | `ret_nmatch` changes only the shape of the answer: the cost is the same either way. |
| Residuals.PooledCountBound | RMS/Astrometry/ACFnew.py:183-202 | No more distances are pooled than there are detected stars. |
| Residuals.PooledCountMonotone | RMS/Astrometry/ACFnew.py:142-202 | A larger matching radius never pools fewer distances, even after the per-exposure threshold. |
| Residuals.MatchCost | RMS/Astrometry/ACFnew.py:210 | The cost of a match is never negative. |
| Residuals.CalcImageResidualsAstro | RMS/Astrometry/ACFnew.py:228-248 | The pointing cost is never negative, and it is the sentinel when nothing matches with the pointing replaced by `params`. |
| Residuals.CalcImageResidualsDistorsion | RMS/Astrometry/ACFnew.py:252-269 | The distortion cost is never negative, and it is the sentinel when nothing matches with the polynomial replaced by `params`. |
| Residuals.AstroCostOverwritesPointing | RMS/Astrometry/ACFnew.py:228-248 | The pointing cost ignores the pointing the platepar held. At the platepar's own pointing it equals the platepar's cost. |
| Residuals.DistortionCostOverwritesPolynomial | RMS/Astrometry/ACFnew.py:252-269 | The distortion cost ignores the polynomial being fitted. At the platepar's own polynomial it equals the platepar's cost. |
| AutoFit.SettingsOf | RMS/Astrometry/ACFnew.py:304-352 | The refinement reads `ff_min_stars`, `calstars_files_N`, `calstars_min_stars` and `min_matched_stars` from the configuration. |
| AutoFit.DefaultFitSettings | RMS/ConfigReader.py:64-230 | A freshly made configuration gives the refinement `ff_min_stars` 5, `fps` 25, `calstars_files_N` 400, `calstars_min_stars` 500, `min_matched_stars` 7 and `catalog_mag_limit` 4.5. |
| AutoFit.QualifyingExposures | RMS/Astrometry/ACFnew.py:296-311 | `star_dict` has distinct dates and no more entries than CALSTARS has. |
| AutoFit.QualifyingExposuresEnoughStars | RMS/Astrometry/ACFnew.py:304-311 | Every kept exposure has at least `ff_min_stars` stars. |
| AutoFit.QualifyingExposuresDates | RMS/Astrometry/ACFnew.py:299-311 | A date is kept if and only if some CALSTARS file with enough stars has that middle time. |
| AutoFit.SelectExposures | RMS/Astrometry/ACFnew.py:296-311 | The loop builds exactly that dictionary, one `star_dict[jd] = ...` at a time. |
| AutoFit.SampleExposures | RMS/Astrometry/ACFnew.py:322-323 | The sample has `calstars_files_N` distinct dates of the pool, each with its stars. |
| AutoFit.SampleOfWholePool | RMS/Astrometry/ACFnew.py:322-323 | A sample as large as the pool holds every date of the pool. |
| AutoFit.CountStars | RMS/Astrometry/ACFnew.py:327 | The total is the sum of the star counts of the sampled exposures. |
| AutoFit.StartParams | RMS/Astrometry/ACFnew.py:358-400 | The minimiser starts from `[RA_d, dec_d, pos_angle_ref, F_scale]` for the pointing, from `x_poly` for X and from `y_poly` for Y. |
| AutoFit.ObjectiveCost | RMS/Astrometry/ACFnew.py:358-400 | The minimiser's cost dispatches on the fitted group: `_calcImageResidualsAstro` for the pointing and `_calcImageResidualsDistorsion` for X or Y. It raises exactly for pointing parameters that are not four, and is never negative. |
| AutoFit.ObjectiveIsCostOfWriteBack | RMS/Astrometry/ACFnew.py:358-411 | The cost the minimiser sees at `x` is the cost of the platepar the stage writes back when the minimiser answers `x`. |
| AutoFit.ObjectiveAtStart | RMS/Astrometry/ACFnew.py:358-400 | At the minimiser's starting point, the cost is that of the platepar as it stands. |
| AutoFit.Trace | RMS/Astrometry/ACFnew.py:338-411 | One platepar state per pass, the first being the initial platepar. Each later state is the one the pass at the matching radius left behind. |
| AutoFit.FitSucceedsIffEveryPass | RMS/Astrometry/ACFnew.py:338-422 | The refinement returns `True` if and only if two things hold. Every pass matched enough stars and had its three fits succeed. The closing statistics then found a match. |
| AutoFit.FittedPassMatchedEnough | RMS/Astrometry/ACFnew.py:341-354 | A pass goes on to the fits only after at least `calstars_files_N` stars matched. |
| AutoFit.PoorInitialFitChangesNothing | RMS/Astrometry/ACFnew.py:352-354 | Too few initial matches give `(platepar, False)` with the platepar untouched. |
| AutoFit.NoMatchRaises | RMS/Astrometry/ACFnew.py:341-342 | No match at all at the first radius raises before anything is fitted, because the sentinel is unpacked into three names. |
| AutoFit.StoppedPassKeepsEarlierFits | RMS/Astrometry/ACFnew.py:361-411 | A failed minimisation keeps the fits of the same pass made before it, and never touches `y_poly`. |
| AutoFit.FitKeepsResolution | RMS/Astrometry/ACFnew.py:338-422 | The image size of the platepar never changes. |
| AutoFit.RadiusPassKeepsShape | RMS/Astrometry/ACFnew.py:361-411 | One pass keeps the image size. With a minimiser that keeps the parameter count, it also keeps the polynomial lengths. |
| AutoFit.FitKeepsPolynomialLengths | RMS/Astrometry/ACFnew.py:338-422 | With such a minimiser, the whole refinement keeps the polynomial lengths. |
| AutoFit.Platepar.constructor | RMS/Astrometry/ACFnew.py:275 | The platepar object holds the given state. |
| AutoFit.FitGroupInPlace | RMS/Astrometry/ACFnew.py:358-411 | One minimisation on the object changes it exactly as the stage function `FitGroupStage` does. A refused minimisation stops with `False` and changes nothing, a pointing result that is not four values raises, and otherwise the fitted values are written back. |
| AutoFit.FitAtRadius | RMS/Astrometry/ACFnew.py:338-411 | One pass on the object changes it exactly as the pass function `RadiusPass` does. The sentinel raises, fewer matches than `calstars_files_N` stop with `False`, and otherwise the pointing, X and Y stages run in turn. |
| AutoFit.AutoCheckFit | RMS/Astrometry/ACFnew.py:275-422 | Too few qualifying exposures, or too few stars in the sample, return `False` with the platepar unchanged, and a negative sample size raises. Otherwise the sample is a proper one. The platepar and outcome are those of `FitRadii` over the radius schedule `[3, 1.5, 0.75]`, whose closing check `FinalCheck` raises on the sentinel. |
| ConfigReader.OptionalValue | RMS/ConfigReader.py:655-666 | An option's text exists exactly when the option is present. |
| ConfigReader.GetInt | RMS/ConfigReader.py:343 | `getint` gives `NoOptionError` for a missing option, `ValueError` for text that is not an integer, and the integer otherwise. |
| ConfigReader.GetFloat | RMS/ConfigReader.py:300 | `getfloat` behaves the same way for floats. |
| ConfigReader.GetBoolean | RMS/ConfigReader.py:357 | `getboolean` gives the truth value of an accepted word, ignoring case, and `ValueError` otherwise. |
| ConfigReader.BooleanCaseInsensitive | RMS/ConfigReader.py:357 | Every text reads as its lower-case spelling does. |
| ConfigReader.StringOption | RMS/ConfigReader.py:336-340 | A missing option keeps the current value. A present one gives its text. |
| ConfigReader.IntOption | RMS/ConfigReader.py:342-343 | A missing option keeps the current value. A present one gives `getint`'s result. |
| ConfigReader.FloatOption | RMS/ConfigReader.py:299-300 | A missing option keeps the current value. A present one gives `getfloat`'s result. |
| ConfigReader.BoolOption | RMS/ConfigReader.py:356-357 | A missing option keeps the current value. A present one gives `getboolean`'s result. |
| ConfigReader.FloorDiv | RMS/ConfigReader.py:250 | Python 2's integer `/` rounds the quotient toward minus infinity, for a divisor of either sign. |
| ConfigReader.FloorDivExact | RMS/ConfigReader.py:250 | A multiple of the divisor divides exactly. |
| ConfigReader.FloorDivMono | RMS/ConfigReader.py:250 | Dividing by a positive number keeps the order of numerators, and dividing by a negative one reverses it. |
| ConfigReader.NormalizeParameter | RMS/ConfigReader.py:242-250 | The result fails exactly when `f == 0`, and then with `ZeroDivisionError`. |
| ConfigReader.NormalizeDefaultDistance | RMS/ConfigReader.py:250 | The default 4900 at 1280x720 with `f = 16` normalises to 42, where true division would give 42.53. |
| ConfigReader.NormalizeScalesByArea | RMS/ConfigReader.py:250 | The normalised value `r`, times `414720 f^2`, is at most `param * width * height`. It falls short of it by less than the three roundings can lose, `f * (414720 f + f + height)`. |
| ConfigReader.RoundingsBound | RMS/ConfigReader.py:250 | Three floor divisions in a row, scaled back up to the area, lie within those bounds. |
| ConfigReader.NormalizeAtReferenceSize | RMS/ConfigReader.py:250 | On a `720f x 576f` frame, normalising changes nothing, for either sign of `f`. |
| ConfigReader.NormalizeNonNegative | RMS/ConfigReader.py:250 | A non-negative parameter stays non-negative on a frame of non-negative size, for either sign of `f`. |
| ConfigReader.NormalizeMonotone | RMS/ConfigReader.py:250 | A larger parameter never normalises to a smaller value. |
| ConfigReader.Threshold | RMS/ConfigReader.py:567-575 | The option is squared when present, the current value is kept otherwise, and the result is normalised either way. The only failures are `ValueError` and `ZeroDivisionError`. |
| ConfigReader.ThresholdAtReferenceSize | RMS/ConfigReader.py:567-570 | On the reference frame, a given threshold `v` becomes `v^2`. |
| ConfigReader.ParseFloats | RMS/ConfigReader.py:753 | The only failure of `map(float, ...)` is `ValueError`. |
| ConfigReader.ParseFloatsConvertsEach | RMS/ConfigReader.py:753 | The conversion succeeds if and only if every piece converts, and then holds every piece's value in order. |
| ConfigReader.RatiosOption | RMS/ConfigReader.py:748-753 | The band ratios are the comma-separated numbers when the option is present, and the current ratios otherwise. |
| ConfigReader.ChoosePlatform | RMS/ConfigReader.py:30-43 | The Windows setting when the platform contains "win". Otherwise the Raspberry Pi setting on an ARM machine, and the Linux PC setting elsewhere. |
| ConfigReader.DarwinTakesWindowsSetting | RMS/ConfigReader.py:34-35 | On macOS (`darwin`) the Windows setting is taken. |
| ConfigReader.LinuxArmTakesRpiSetting | RMS/ConfigReader.py:34-40 | A host whose platform name has no `w` (`linux`, `linux2`) and whose machine name contains `arm` takes the Raspberry Pi setting. |
| ConfigReader.RoiBounds | RMS/ConfigReader.py:375-392 | For a non-negative size the bounds satisfy `0 <= lo <= hi <= size`. In-range bounds are kept or swapped, and out-of-range ones are replaced by 0 or by the size. |
| ConfigReader.RoiBoundsSymmetric | RMS/ConfigReader.py:375-376 | The bounds may be given in either order. |
| ConfigReader.ClampRange | RMS/ConfigReader.py:375-392 | The swap-and-clamp statements compute exactly those bounds. |
| ConfigReader.ExpandDataDir | RMS/ConfigReader.py:320-333 | An empty path raises `IndexError`. A path not starting with `~` is kept. A `~` path succeeds exactly when something other than `~` remains. |
| ConfigReader.ExpandedDataDirTail | RMS/ConfigReader.py:325-333 | An expanded `~` path is the host's `os.path.join` of the home directory and the path without its `~` characters and without one leading `os.sep`. |
| ConfigReader.HomeRelativeDataDir | RMS/ConfigReader.py:325-333 | On a POSIX host, `~/path` becomes `home/path`. |
| ConfigReader.WindowsKeepsSlash | RMS/ConfigReader.py:325-333 | On a host whose separator is a backslash, the `/` of `~/path` is not stripped: the join receives `/path`. |
| ConfigReader.DeviceIndex | RMS/ConfigReader.py:412-421 | A device name that reads as an integer becomes that index. Anything else stays as it is. |
| ConfigReader.WordsOption | RMS/ConfigReader.py:484-495 | Split words exist exactly when the option is present. |
| ConfigReader.Config.constructor | RMS/ConfigReader.py:48-239 | A new configuration holds the built-in defaults. |
| ConfigReader.Config.ParseSystem | RMS/ConfigReader.py:287-310 | A missing section or `stationID` raises "Not configured!" and changes nothing. Otherwise the station name, coordinates and CAMS code are read, and any failure is a `ValueError` of a present option. |
| ConfigReader.Config.ParseCapture | RMS/ConfigReader.py:314-442 | A missing section changes nothing. When the frame size started as the device size, success leaves the region of interest inside the device frame and the frame size equal to the region's size. Failures are `IndexError` from `data_dir` or a `ValueError` of a present option. |
| ConfigReader.Config.ParseCaptureGeometry | RMS/ConfigReader.py:320-397 | The device size is the configured frame size. The region lies inside it, and the new frame size is the region's width and height. |
| ConfigReader.Config.ParseCaptureFrame | RMS/ConfigReader.py:320-357 | It sets `data_dir` (expanded), the directories, the frame and device size and `report_dropped_frames`, each from its option or kept. |
| ConfigReader.Config.ParseRegionOfInterest | RMS/ConfigReader.py:361-397 | The four ROI bounds are the clamped bounds of the options, or of the current values. The width and height become the size of the region. |
| ConfigReader.Config.ParseCaptureSettings | RMS/ConfigReader.py:400-442 | It sets the brightness, contrast, bit depth, gamma, device index, fps, FF format, field of view, deinterlace order, mask and video recorder, each from its option or kept. Its only failures are `ValueError`s of present `Capture` options. |
| ConfigReader.Config.ParseCaptureDevice | RMS/ConfigReader.py:400-421 | It sets the brightness, contrast, bit depth, gamma and device index, each from its option or kept. |
| ConfigReader.Config.ParseCaptureFormat | RMS/ConfigReader.py:423-442 | It sets the fps, FF format, field of view, deinterlace order, mask and video recorder, each from its option or kept. |
| ConfigReader.Config.ParseBuildArgs | RMS/ConfigReader.py:478-500 | A missing section keeps `extra_compile_args`. Otherwise it is the platform's choice among the split weave options. |
| ConfigReader.Config.ParseUpload | RMS/ConfigReader.py:446-474 | A missing section changes nothing. Otherwise each upload setting comes from its option or is kept, and the key path is home-expanded. |
| ConfigReader.Config.ParseCompression | RMS/ConfigReader.py:504-506 | Nothing changes. |
| ConfigReader.Config.ParseFireballDetection | RMS/ConfigReader.py:510-590 | A missing section changes nothing. The distance and gap thresholds are squared and normalised. The possible failures are `ValueError`, `ZeroDivisionError` for `f == 0`, and the `min_lines`-without-`max_lines` `NoOptionError`. |
| ConfigReader.Config.ParseFireballPoints | RMS/ConfigReader.py:516-541 | It sets the point-detection settings, each from its option or kept. |
| ConfigReader.Config.ParseFireballExtent | RMS/ConfigReader.py:543-565 | It sets the extent and window settings, each from its option or kept. |
| ConfigReader.Config.ParseFireballLines | RMS/ConfigReader.py:567-590 | It sets the thresholds and line settings. Success implies `max_lines` is present whenever `min_lines` is. |
| ConfigReader.Config.ParseMeteorDetection | RMS/ConfigReader.py:594-690 | A missing section changes nothing. The failures are `ValueError`s of present options, or `ZeroDivisionError` for `f == 0`. |
| ConfigReader.Config.ParseMeteorSegments | RMS/ConfigReader.py:600-622 | It sets the segment settings, each from its option or kept. |
| ConfigReader.Config.ParseMeteorThresholds | RMS/ConfigReader.py:624-632 | The detection thresholds are squared when given and normalised. |
| ConfigReader.Config.ParseMeteorLines | RMS/ConfigReader.py:634-650 | It sets the line settings, each from its option or kept. |
| ConfigReader.Config.ParseMeteorMerging | RMS/ConfigReader.py:655-690 | The KHT library path is the platform's choice. It also sets the merging settings. |
| ConfigReader.Config.ParseStarExtraction | RMS/ConfigReader.py:695-723 | A missing section changes nothing. Otherwise each extraction setting comes from its option or is kept. |
| ConfigReader.Config.ParseCalibration | RMS/ConfigReader.py:727-799 | A missing section changes nothing. The failures are `ValueError`s of present options. |
| ConfigReader.Config.ParseCalibrationFiles | RMS/ConfigReader.py:733-763 | It sets the flat, catalog, band-ratio and platepar file settings, each from its option or kept. |
| ConfigReader.Config.ParseCalibrationChecks | RMS/ConfigReader.py:765-781 | It sets the catalog and check settings, each from its option or kept. |
| ConfigReader.Config.ParseCalibrationFit | RMS/ConfigReader.py:783-799 | It sets the fit settings, each from its option or kept. |
| ConfigReader.Config.ParseThumbnails | RMS/ConfigReader.py:803-817 | A missing section changes nothing. Otherwise the thumbnail settings come from their options or are kept. |
| ConfigReader.Config.ParseOtherSections | RMS/ConfigReader.py:276-283 | The sections after `Capture` never raise "Not configured!" or `IndexError`. |
| ConfigReader.Config.ParseAllSections | RMS/ConfigReader.py:273-283 | A missing `stationID` raises "Not configured!". Success holds the station name from the file. |
| ConfigReader.Parse | RMS/ConfigReader.py:253-269 | `parse` gives a fresh configuration holding the file's station name, or "Not configured!" when the file names no station. |
| MakeFlat.SettingsOf | Utils/MakeFlat.py:97-114 | The flat reads `ff_min_stars`, `flat_min_imgs` and `fps` from the configuration. |
| MakeFlat.DefaultFlatSettings | RMS/ConfigReader.py:64-205 | A freshly made configuration gives the flat `ff_min_stars` 5, `fps` 25 and `flat_min_imgs` 20. |
| MakeFlat.CalstarsFileChosen | Utils/MakeFlat.py:40-47 | Nothing is found exactly in an empty folder. Otherwise the result is the first name containing `CALSTARS` and `.txt`, or the last listed name when none does. |
| MakeFlat.FindCalstarsFile | Utils/MakeFlat.py:40-47 | The search loop finds exactly that name. |
| MakeFlat.Filter | Utils/MakeFlat.py:63-65 | The kept elements are exactly the accepted ones. |
| MakeFlat.FilterMultiset | Utils/MakeFlat.py:79-100 | Filtering never adds copies. |
| MakeFlat.SelectCandidates | Utils/MakeFlat.py:60-65 | `ff_list` is the listing filtered by "valid FF name, and listed in CALSTARS or `nostars`". |
| MakeFlat.SelectGoodFiles | Utils/MakeFlat.py:75-104 | `ff_list_good` is `ff_list` filtered by "strictly more than `ff_min_stars` stars, or `nostars`". `ff_times` is their middle Julian dates. |
| MakeFlat.SelectedIff | Utils/MakeFlat.py:53-100 | A file is selected if and only if it is in the folder, has a valid name, and, unless `nostars` is set, has more than `ff_min_stars` stars in its last CALSTARS entry. |
| MakeFlat.MaxOf | Utils/MakeFlat.py:114 | `max` is an element no smaller than any other. |
| MakeFlat.MinOf | Utils/MakeFlat.py:114 | `min` is an element no larger than any other. |
| MakeFlat.SpanCheck | Utils/MakeFlat.py:113-116 | The two-hour test passes if and only if some two selected files lie more than two hours apart. |
| MakeFlat.SampleFlatFiles | Utils/MakeFlat.py:119-122 | At most 200 files are used: the selection itself, or 200 of them drawn without replacement and sorted. |
| MakeFlat.SampleDistinct | Utils/MakeFlat.py:122 | A sample of distinct names has distinct names. |
| MakeFlat.BatchesOfTen | Utils/MakeFlat.py:128-158 | The loaded images fall into consecutive batches of ten, and each batch's median is the matching entry of `median_list`. The unfinished batch is in no median. |
| MakeFlat.BatchCountBound | Utils/MakeFlat.py:133-158 | Every median costs eleven iterations: eleven times the medians plus the counter is at most the file count. |
| MakeFlat.CombineInBatches | Utils/MakeFlat.py:128-158 | The loop produces exactly the specified `median_list`. |
| MakeFlat.FewFilesRaise | Utils/MakeFlat.py:161-169 | With ten files or fewer, `median_list[0]` raises `IndexError`. |
| MakeFlat.FlatIffBatchCompleted | Utils/MakeFlat.py:128-178 | A flat is made if and only if a batch of ten was completed, which needs more than ten files. |
| MakeFlat.PreparedSelection | Utils/MakeFlat.py:107-116 | Without `nostars`, the files used number at least `flat_min_imgs` and span more than two hours. |
| MakeFlat.NostarsTakesEveryValidFile | Utils/MakeFlat.py:63-116 | With `nostars`, every valid FF name of the folder is used and no check applies. |
| MakeFlat.MakeFlat | Utils/MakeFlat.py:22-178 | `makeFlat` returns the early `None`s or the `max()` exception as specified. Otherwise the flat comes from the batches of the sample it used. |
| FieldSolver.LineLength | RMS/Astrometry/FieldSolver.py:100 | The first line runs up to the first line break. |
| FieldSolver.SplitLines | RMS/Astrometry/FieldSolver.py:100 | No line holds a line break. |
| FieldSolver.SplitLinesSingle | RMS/Astrometry/FieldSolver.py:100 | Text without a break is one line, and empty text is no line. |
| FieldSolver.SplitLinesOfJoined | RMS/Astrometry/FieldSolver.py:100 | A line followed by LF splits off as the first line. |
| FieldSolver.LastMatchWins | RMS/Astrometry/FieldSolver.py:102-107 | A value is kept if and only if some line matched, and it is the matches of the last matching line. |
| FieldSolver.SolverResultsFromLastLines | RMS/Astrometry/FieldSolver.py:102-113 | At most one result is produced. There is exactly one when both a centre line and a rotation line exist, and it is `[ra, dec]` of the last centre line followed by the last rotation angle. |
| FieldSolver.ResultQueue.Put | RMS/Astrometry/FieldSolver.py:113 | The item is appended to the queue. |
| FieldSolver.FieldSolver.FormatResults | RMS/Astrometry/FieldSolver.py:93-113 | The queue grows by exactly the specified results. |
| Calstars.Trunc | RMS/Formats/CALSTARS.py:67-68 | `int()` truncates toward zero. |
| Calstars.Header | RMS/Formats/CALSTARS.py:41-50 | The header is ten lines. |
| Calstars.Block | RMS/Formats/CALSTARS.py:59-68 | An image's block is four lines plus one per star. |
| Calstars.CalstarsLineCount | RMS/Formats/CALSTARS.py:38-71 | The file has ten header lines, four lines per image, one line per star and the closing line. |
| Calstars.BlockPlacement | RMS/Formats/CALSTARS.py:53-68 | Image `k`'s block starts right after the blocks of the images before it, so images appear in input order. |
| Calstars.TextAppend | RMS/Formats/CALSTARS.py:41 | Each `write(line + "\n")` appends one line. |
| Calstars.TextReadsBack | RMS/Formats/CALSTARS.py:38-71 | Splitting the written text on LF gives back the lines, followed by one empty piece. |
| Calstars.StarLineFields | RMS/Formats/CALSTARS.py:67-68 | A star line splits on white space into row, column, background and intensity, in that order. |
| Calstars.Int6Word | RMS/Formats/CALSTARS.py:67-68 | A `{:6d}` field splits into the number's digits. |
| Calstars.StarFile.Write | RMS/Formats/CALSTARS.py:41-71 | The text grows by what was written. |
| Calstars.Disk.Close | RMS/Formats/CALSTARS.py:38 | Closing stores the file's text at its path, and no other path changes. |
| Calstars.MakeCalstars | RMS/Formats/CALSTARS.py:21-71 | After the call, the disk holds the CALSTARS text at `join(ff_directory, file_name)`, where `join` is the host's `os.path.join`, and every other path is unchanged. |
| Strings.ContainsIffOccurs | RMS/ConfigReader.py:34-39 | `sub in s` holds if and only if `sub` occurs at some position. |
| Strings.RemoveAll | RMS/ConfigReader.py:327 | `replace('~', '')` removes every `~` and keeps every other character's count. |
| Strings.PosixJoin | RMS/ConfigReader.py:333 | An absolute second path replaces the first. Otherwise the result starts with the first path and ends with the second. |
| Strings.NatToStringRoundTrip | RMS/Formats/CALSTARS.py:47-49 | Reading `str(n)` back gives `n`. |
| Strings.IntToStringRoundTrip | RMS/Formats/CALSTARS.py:47-49 | The same holds for negative numbers, past the minus sign. |
| Strings.PadLeftLayout | RMS/Formats/CALSTARS.py:67 | A right-aligned field is at least as wide as asked, ends with the text and has only spaces before it. |
| Strings.Words | RMS/ConfigReader.py:489-495 | `split()` gives non-empty words without white space. White space is that of a Python 2 byte string: tab, line feed, vertical tab, form feed, carriage return and space. |
| Strings.WordsKeepAllText | RMS/ConfigReader.py:489-495 | The words hold every non-space character, in order, and nothing else. |
| Strings.SplitOnJoinWith | RMS/ConfigReader.py:753 | Joining the pieces of `split(',')` with `,` gives the text back. |
| Strings.AsciiLower | RMS/ConfigReader.py:357 | Lower-casing changes exactly the ASCII capitals. |
| Strings.AsciiLowerIdempotent | RMS/ConfigReader.py:357 | Lower-casing twice is lower-casing once. |
| Strings.SortStrings | Utils/MakeFlat.py:122 | `sorted` gives a lexicographically sorted permutation. |
| OrderedDict.Get | Utils/MakeFlat.py:84-90 | A value exists exactly for the keys present. |
| OrderedDict.Insert | RMS/Astrometry/ACFnew.py:311 | `d[k] = v` keeps the keys distinct, keeps the position of an existing key, appends a new key, maps `k` to `v` and leaves every other key unchanged. |
| OrderedDict.FromList | RMS/Astrometry/ACFnew.py:288 | The comprehension has exactly the listed keys, each with the value of its last pair. |

## Left out

- **Floating-point numerics.** Projection, catalog subsetting, square root, Nelder-Mead, median, `np.max` stretching and `{:7.2f}` rendering are given as functions. Reals stand for floats, with no rounding.
- **I/O.** Reading CALSTARS and FF files, `os.listdir`, the clock and the INI file tokenising are inputs. Printing is omitted.
- **Outside collaborators.** `RMS/ExtractStars.py`, `RMS/VideoRecorder.py` and `RMS/DownloadPlatepar.py` are not part of this model. Neither are the solver process's `run`, `start` and `stop` in `FieldSolver.py`, nor the `__main__` blocks.
- **`FieldSolver.SplitLines`.** It treats only LF, CR and CR LF as line breaks. That is what `splitlines` does on the byte strings the solver writes. The other Unicode breaks of `str.splitlines` are not modelled.
- **`AutoFit.SampleExposures`.** `random.sample(star_dict, N)` is modelled as a sample of the dictionary's keys, as Python 2 draws it. Any `N` distinct dates may be drawn; randomness is not modelled. Under Python 3, `random.sample` does not take a dictionary and raises `TypeError`.
- **`ConfigReader.NormalizeParameter`.** Under Python 3 the three divisions would be true divisions, and the result a float: 42.53 instead of 42 for the default distance threshold. The model follows Python 2.
- **`ConfigReader.NormalizeScalesByArea`.** Under Python 2 the normalised value only approximates `param * width * height / (414720 f^2)`. The lemma states the two-sided bound, for `f > 0` and a non-negative height. With a negative `f`, only the exact case `NormalizeAtReferenceSize` and the sign `NormalizeNonNegative` are stated.
- **`FieldSolver.FieldSolver.FormatResults`.** Under Python 3 the solver's output would be `bytes`, and searching it with the `str` patterns at `RMS/Astrometry/FieldSolver.py:104` and `:106` raises `TypeError`. The model follows Python 2, where the output is a `str`.
- **Dictionary order.** Python 2 does not define the order in which a `dict` is iterated. The model takes insertion order (`OrderedDict`). Where an outcome could depend on that order, the model pins it down.
- **Module-global `config`.** `matchStarsResiduals` reads `catalog_mag_limit` from the module-global `config`, which only the `__main__` block sets (`RMS/Astrometry/ACFnew.py:83` and `:445`). The model passes that value in as the `magLimit` argument.
- **`os.path.join` on Windows.** `ntpath.join` is a parameter: the host's `Host.join` for `ConfigReader`, and the `join` argument of `Calstars.MakeCalstars`. Only `posixpath.join` is modelled as a function, `Strings.PosixJoin`.
- **`MakeFlat.SampleFlatFiles`.** Any 200 of the selected files may be drawn.
- **`AutoFit.AutoCheckFit`.** It requires `min_matched_stars >= 1`. With 0, an exposure without matches makes the source fail while unpacking an empty array. That failure is not modelled.
- **`Residuals.MatchStarsResiduals`.** It requires `min_matched_stars >= 1`, for the same reason.
- **`Residuals.CalcImageResidualsAstro`.** It requires four parameters. The minimiser always hands back as many as it was given, and `AutoFit` models a wrong-length result as an unpacking error.
- **`ConfigReader.Parse`.** It does not restate the frame-geometry invariant. That invariant is stated on `ConfigReader.Config.ParseCapture`, and the later sections do not have those fields in their frames. `ConfigReader.Parse` also does not restate each setting; those are stated on the section methods.
- **`ConfigReader.Config.ParseAllSections`.** The same applies: it states only the `System` outcome.
- **`ConfigReader.Config.ParseCapture`.** It states the parsed values on its sub-methods (`ParseCaptureFrame`, `ParseRegionOfInterest`, `ParseCaptureDevice`, `ParseCaptureFormat`), not itself.
- **`ConfigReader.Config.ParseMeteorDetection`.** It states the parsed values on its sub-methods.
- **`ConfigReader.Config.ParseFireballDetection`.** It states the point and extent settings on its sub-methods.
- **`ConfigReader.Config.ParseCalibration`.** It states the parsed values on its sub-methods.
- **`ConfigReader.Config.ParseOtherSections`.** It states only that these sections never raise "Not configured!" or `IndexError`. It does not restate the settings it writes. Those are stated on the section methods it calls in order: `ParseBuildArgs`, `ParseUpload`, `ParseCompression`, `ParseFireballDetection`, `ParseMeteorDetection`, `ParseStarExtraction`, `ParseCalibration` and `ParseThumbnails`. Carrying each section's settings unchanged through the calls after it goes past the verifier's resource limit.
- **`ConfigReader.Config.ParseSectionsAfterSystem`.** It has no contract of its own beyond its frame, which leaves out the `System` fields. It runs `ParseCapture` and then, unless that failed, `ParseOtherSections`.
- **INI parser semantics.** Inline comments, interpolation and duplicate sections are not modelled. An option name is looked up lower-cased, as `RawConfigParser` does.
