# NiElastic LAMMPS post-processing and run set-up, modelled in Dafny

This project models the core of NiElastic_LAMMPS_PYTHON. That program sets up
LAMMPS molecular-dynamics runs of a nickel crystal at several temperatures. It
then turns the thermodynamic output of those runs into the elastic constants
C11, C12 and C44, and derives the bulk, shear and Young's moduli and the
Poisson ratio from them. Three Python files form the core. Each is modelled as
one Dafny module, plus two shared modules:

- `common.dfy` (module `Common`) holds the shared pieces:
  - `Result` and `Error`, which carry the exceptions Python would raise;
  - `Stat`, a float that may be NaN or infinite;
  - `Piece`/`Record`, the comma-separated text the scripts write.
- `series.dfy` (module `Series`) holds the numerics the scripts take from numpy:
  - the mean and Python slicing of a time series;
  - `numpy.convolve(..., 'valid')` with a box window;
  - `numpy.polyfit(x, y, 1)`, as the ordinary-least-squares slope.
- `averaging.dfy` (module `Averaging`) models `avlmp.py`:
  - `imp_data`, the column import of `log.lammps`;
  - `simpav` and `moveav`, which fill a numpy 2-D array stage by stage, in
    loops over an `array2`;
  - `fitstr`, the stress-strain fit.
- `elastic.dfy` (module `Elastic`) models `ellmp.py`'s `cs`:
  - it reads the initial and final averages of every run;
  - it forms C11, C12 and C44 by finite differences;
  - it writes one row of `res_Cs.txt`, in the unsplit mode or from the three
    split sub-runs.
- `moduli.dfy` (module `Moduli`) models `ellmp.py`'s `elprops`:
  - it loads `res_Cs.txt` back;
  - it derives B, G (Voigt and Reuss), E and nu for every temperature.
- `scripts.dfy` (module `Scripts`) models `runlmp.py`:
  - the parameter substitution into `init.mod` (`sub_input`, `mod_init`);
  - the replicate rewrite (`num_atoms`);
  - the file lists, directories and submissions of the two run modes `n` and
    `3n` (`make_main`, `make_dirs`, `lmp_sub`).

The model handles several parts of the program as values:

- File contents are values. A file system is a map from path to lines.
- Python's exceptions are `Failure` values:
  - `IndexError` on a short file or a squeezed array;
  - `NameError` on a name the code never binds;
  - `ValueError` on a token that is not a number;
  - `ZeroDivisionError`.
- numpy's NaN and infinity are `Undefined`.
- Subprocesses and submissions are values too. The model returns the moves,
  job names and `qsub` command lines the program would execute, and does not
  run them.

## Model

| member | source | states |
|---|---|---|
| Common.Div | ellmp.py:131 | A float quotient is defined exactly when the divisor is non-zero, and then it times the divisor gives the dividend |
| Common.CsvRowOfFour | ellmp.py:60-62 | A four-value row is written as the values separated by commas and ended by a newline |
| Series.Mean | avlmp.py:71 | The mean of a slice is defined exactly when the slice is non-empty (numpy gives NaN on an empty slice) |
| Series.MeanOfConstant | avlmp.py:71 | The mean of a constant series is that constant |
| Series.MeanWithinBounds | avlmp.py:71 | The mean lies between any lower and upper bound of the samples |
| Series.Stage | avlmp.py:66-71 | The Python slice col[lo:hi] has the clipped length and holds col[lo+k] at position k |
| Series.ValidConvolution | avlmp.py:99-101 | A 'valid' box convolution has n-w+1 entries, and entry k is the mean of the window s[k..k+w] |
| Series.MovingMean | avlmp.py:100-101 | The mean of the valid convolution is defined whenever the window fits the stage |
| Series.ConvolutionWindowOne | avlmp.py:99-101 | A window of one leaves the series unchanged |
| Series.MovingMeanWindowOne | avlmp.py:99-101 | With a window of one the moving average equals the plain mean |
| Series.MovingMeanOfConstant | avlmp.py:99-101 | The moving average of a constant series is that constant, for every window size |
| Series.OlsSlope | avlmp.py:182 | The first-degree fit succeeds exactly when the abscissa is non-empty with non-zero spread, and then slope × spread = covariation |
| Series.SpreadSign | avlmp.py:182 | The spread is never negative, and it is zero exactly when the abscissa is constant |
| Series.SqDevSign | avlmp.py:182 | A sum of squared deviations is never negative, and it is zero exactly when every sample equals the centre |
| Series.SlopeOfLine | avlmp.py:182 | On points that lie exactly on a line a·x + b, the fit returns a |
| Series.SlopeOfHalvedAbscissa | avlmp.py:186 | Fitting against half the strain doubles the slope |
| Series.SlopeOfNegated | avlmp.py:182 | Fitting against the negated stress negates the slope |
| Series.SlopeOfTwoPoints | avlmp.py:182 | On two points the fit is the finite-difference quotient (y1-y0)/(x1-x0) |
| Averaging.Lookup | avlmp.py:47-54 | Defines one column lookup: list.index of the name, then data[:, index]; ImportMeaning states its outcome |
| Averaging.ImportPrefix | avlmp.py:52-54 | Defines the dictionary after the first n names; ImportPrefixMeaning states it |
| Averaging.Import | avlmp.py:47-54 | Defines the dictionary imp_data builds; ImportMeaning states it |
| Averaging.Column | avlmp.py:54 | data[:, j] has one entry per table row, and entry i is rows[i][j] |
| Averaging.FirstIndexIsLeast | avlmp.py:47-48 | list.index finds no position exactly when the name is absent, and otherwise the least position holding it |
| Averaging.ImpData | avlmp.py:35-55 | imp_data returns the import of the requested columns and an empty stage log |
| Averaging.ImportPrefixMeaning | avlmp.py:52-54 | The import of the first n names succeeds exactly when the table is two-dimensional and every name is a column, and then each name maps to its column |
| Averaging.ImportMeaning | avlmp.py:47-54 | The import succeeds exactly when the table is two-dimensional and every requested name is a thermo column, and then each name maps to the column of its first occurrence |
| Averaging.ImportMissingName | avlmp.py:47-48 | A requested name that is not among the thermo names makes the import fail |
| Averaging.ImportSqueezed | avlmp.py:41 | A one-row or one-column table, which loadtxt squeezes to one dimension, makes any non-empty import fail |
| Averaging.ImportColumnsHaveTableLength | avlmp.py:54 | Every imported column has one entry per table row |
| Averaging.ImportServes | avlmp.py:52-54 | A successful import binds every requested name to a column of table length |
| Averaging.ImportNameCount | avlmp.py:52-54 | The dictionary has at most as many keys as requested names, and exactly as many when the names are distinct |
| Averaging.MeanTable | avlmp.py:64 | The table of stage means has one row per stage and one column per imported name |
| Averaging.MovingMeanTable | avlmp.py:92 | The table of moving means has one row per stage and one column per imported name |
| Averaging.SetRow | avlmp.py:69-71 | The inner loop sets row ik of the matrix to one value per requested name and changes no other row |
| Averaging.FillMeans | avlmp.py:64-71 | The nested loops fill meanvar with the stage mean of every name in every stage |
| Averaging.FillMovingMeans | avlmp.py:92-101 | The nested loops fill mvavar with the moving average of every name in every stage |
| Averaging.SimpleMeans | avlmp.py:57-77 | Defines simpav's result given the stage boundaries; SimpleMeansShape states it |
| Averaging.MovingMeans | avlmp.py:79-107 | Defines moveav's result given the stage boundaries and window; MovingMeansWindowOne relates it to SimpleMeans |
| Averaging.Simpav | avlmp.py:57-77 | simpav, given the stage boundaries, returns the header and stage-mean table its specification defines |
| Averaging.Moveav | avlmp.py:79-107 | moveav, given the stage boundaries and a fitting window, returns the header and moving-average table its specification defines |
| Averaging.SimpavAsWritten | avlmp.py:60-64 | With the empty log imp_data returns, simpav always fails (numpy.zeros of a negative size) |
| Averaging.MoveavAsWritten | avlmp.py:88-92 | With the empty log imp_data returns, moveav always fails |
| Averaging.SimpleMeansShape | avlmp.py:61-71 | A successful simpav has the requested names as header and one row per stage, whose cells are the stage means |
| Averaging.MovingMeansWindowOne | avlmp.py:79-101 | moveav with a window of one returns exactly what simpav returns |
| Averaging.ConstantStage | avlmp.py:66-101 | A stage over which a column is constant averages to that constant, both simply and by moving average |
| Averaging.StrainOf | avlmp.py:166 | The strain eta = (lx - lx0)/lx0 has one entry per sample and satisfies eta·lx0 = lx - lx0 |
| Averaging.StressStrainSlope | avlmp.py:182-187 | A stress-strain fit succeeds only on a non-empty window with non-zero initial length |
| Averaging.FitRecord | avlmp.py:181-205 | Defines the text fitstr appends once the windows are cut; FitRecordLinear, FitRecordSplitX and FitRecordUnsplitShape state it |
| Averaging.FitRecordUnsplitShape | avlmp.py:181-189 | In unsplit mode a successful fit writes one four-field row that starts with T |
| Averaging.FitStr | avlmp.py:133-205 | A successful fitstr found T, lx, pxx, pyy and p+dirC44 among the imported columns, and in unsplit mode writes one four-field row starting with T |
| Averaging.NegatedIsAffine | avlmp.py:182 | If -p is a linear response to the strain, then the negated stress series is the same affine function of the strain |
| Averaging.FitRecordLinear | avlmp.py:181-189 | On exactly linear stress over a non-constant strain, fitstr writes T, a11·1e-4, a12·1e-4 and 2·a44·1e-4 (the C44 fit runs against half the strain) |
| Averaging.FitRecordSplitX | avlmp.py:190-195 | The 'x' sub-run succeeds exactly when the C11 fit does, and it writes T and that C11, each followed by a comma |
| Averaging.FitStrSplitYFails | avlmp.py:196-200 | The 'y' sub-run always fails, because eta12 is never bound |
| Averaging.FitStrSplitNeverEndsRow | avlmp.py:201-205 | With dirC44 'xy' no split sub-run ever ends the row with a newline |
| Elastic.PyIndex | ellmp.py:24-25 | A Python index is valid exactly within -n..n-1, and a negative index counts from the end |
| Elastic.FromKeys | ellmp.py:22-23 | Every key of dict.fromkeys starts unset |
| Elastic.FromKeysKeys | ellmp.py:22-23 | dict.fromkeys over a string has exactly its single characters as keys |
| Elastic.ReadRun | ellmp.py:19-28 | Reading one run's av_res.txt returns the initial and final readings its specification defines |
| Elastic.AssignLastWins | ellmp.py:26-28 | After the assignment loop, a name holds the token of its last position |
| Elastic.AssignOthers | ellmp.py:26-28 | The assignment loop leaves every key that is not a requested name as it was |
| Elastic.ReadAvResTail | ellmp.py:22-28 | With distinct names and 1 <= nsteps < the line count, the read succeeds, and name jk holds token jk of line -nsteps (initial) and of the last line (final) |
| Elastic.UnrequestedNameFails | ellmp.py:31-45 | Converting a name that was never requested fails, in both readings |
| Elastic.Float | ellmp.py:31-45 | float() of a reading succeeds exactly when the name is present and holds a numeric token |
| Elastic.FiniteDifference | ellmp.py:50 | The finite difference is defined exactly when the reference length is non-zero and the length changed, and then C × strain = -(Δp)·1e-4 |
| Elastic.FiniteDifferenceRecovers | ellmp.py:50 | A pressure change of -c·1e4·strain gives back the constant c |
| Elastic.FiniteDifferenceIsTwoPointFit | ellmp.py:50 | The finite difference is the GPa-scaled stress-strain fit through the initial and final point |
| Elastic.ReadAvRes | ellmp.py:19-28 | Defines the initial and final readings of av_res.txt; ReadAvResTail states what they hold |
| Elastic.UnsplitRow | ellmp.py:16-62 | Defines the unsplit row; CsUnsplitRecord states its fields |
| Elastic.SubRunPieces | ellmp.py:66-110 | Defines one split sub-run's pieces; SubRunPiecesShape and SubRunPiecesValues state them |
| Elastic.CsSpec | ellmp.py:12-114 | Defines what cs appends to res_Cs.txt in each mode; CsUnsplitRecord and CsSplitRecord state it |
| Elastic.CsUnsplit | ellmp.py:16-62 | The unsplit branch returns the row its specification defines |
| Elastic.CsSplit | ellmp.py:63-114 | The split branch loops over x, y, yz and returns the row its specification defines |
| Elastic.Cs | ellmp.py:12-114 | cs dispatches on the mode and returns the row its specification defines |
| Elastic.CsUnsplitRecord | ellmp.py:31-62 | A successful unsplit row has four fields: the initial T; C11, the finite difference of pxx over the lx strain; C12 equal to C11 (the code reads pxx and lx for both); and C44, the finite difference of pxy over the xy tilt divided by the initial lx |
| Elastic.SplitPiecesInOrder | ellmp.py:64-110 | The split row is the x pieces, then the y pieces, then the yz pieces, and all three sub-runs succeed |
| Elastic.SubRunPiecesValues | ellmp.py:84-110 | Each sub-run's constant: x gives C11 from pxx over the lx strain; y gives C12 from pxx over the ly strain; yz gives C44 from pyz over the yz tilt divided by the initial lz |
| Elastic.SubRunPiecesShape | ellmp.py:81-110 | The x sub-run writes T and C11 with commas, y writes C12 and a comma, and yz writes C44 |
| Elastic.JoinedPiecesFormRow | ellmp.py:111-114 | The three sub-run pieces and a newline form one four-field row: x's T, x's C11, y's C12, yz's C44 |
| Elastic.CsSplitRecord | ellmp.py:63-114 | A successful split row has four fields, made of the x, y and yz pieces in order: the x run's T, then the C11, C12 and C44 of SubRunPiecesValues |
| Moduli.Scale | ellmp.py:128-134 | Scaling keeps a value defined exactly when it was defined |
| Moduli.Bulk | ellmp.py:128 | Defines B = (C11 + 2 C12)/3 |
| Moduli.VoigtShear | ellmp.py:130 | Defines GV = (C11 - C12 + 3 C44)/5; ReussBelowVoigt compares it with GR |
| Moduli.ReussShear | ellmp.py:131 | GR is defined exactly when 3(C11-C12)+4C44 is non-zero, and then GR × that = 5(C11-C12)C44 |
| Moduli.Young | ellmp.py:133-134 | E = 9BG/(3B+G) is defined exactly when G is defined and 3B+G is non-zero |
| Moduli.PoissonAsWritten | ellmp.py:136-137 | The ratio as written is defined exactly when G is defined and 3B+G is non-zero |
| Moduli.Poisson | ellmp.py:136-137 | The corrected ratio is defined exactly when G is defined and 3B+G is non-zero |
| Moduli.DeriveAsWritten | ellmp.py:128-137 | Defines the properties of one row as the code computes them, with the Poisson ratios of PoissonAsWritten |
| Moduli.Derive | ellmp.py:128-137 | Defines the properties of one row with the corrected Poisson ratios; IsotropicAveragesAgree, ReussDenominatorZero and PoissonIdentities state them |
| Moduli.ParseFields | ellmp.py:120 | Parsing one line yields at least one field and consumes text |
| Moduli.DeriveAll | ellmp.py:121-137 | Corrected: one set of moduli per row, in order |
| Moduli.DeriveAllAsWritten | ellmp.py:121-137 | As written: one set of moduli per row, in order |
| Moduli.ElpropsAsWritten | ellmp.py:116-145 | Defines elprops as written: no ndmin on loadtxt, and the Poisson ratios as written |
| Moduli.Elprops | ellmp.py:116-145 | Defines the corrected elprops: a two-dimensional load and the corrected Poisson ratios |
| Moduli.ParseWrittenLine | ellmp.py:120 | A written row parses back to its values, with the rest of the text left over |
| Moduli.LoadWritten | ellmp.py:120 | Loading the text written from records gives those records back |
| Moduli.ElpropsOfWritten | ellmp.py:116-145 | elprops on a written res_Cs.txt succeeds and derives, row by row and in order, the moduli of each record paired with its T |
| Moduli.ElpropsAsWrittenOfWritten | ellmp.py:116-145 | elprops as written, on a file of at least two records, succeeds row by row; every property but nu agrees with the corrected version, and nuV, nuR are the ratios as written |
| Moduli.ElpropsAsWrittenPoissonOfIsotropic | ellmp.py:136 | On a res_Cs.txt of rows with C11 = 3, C12 = 1, C44 = 1, elprops as written saves nuV = 1/3, and the corrected version saves 1/4 |
| Moduli.ElpropsAsWrittenOneRow | ellmp.py:120-124 | A file with a single record makes elprops as written fail, while the corrected version succeeds |
| Moduli.IsotropicAveragesAgree | ellmp.py:128-137 | On an isotropic crystal (C11-C12 = 2C44) the Voigt and Reuss shear, Young's moduli and Poisson ratios agree |
| Moduli.ReussDenominatorZero | ellmp.py:128-137 | When 3(C11-C12)+4C44 = 0 the Reuss values are NaN, while B and GV keep their closed forms |
| Moduli.ReussBelowVoigt | ellmp.py:130-131 | For C11 > C12 and C44 > 0, GR ≤ GV, with equality exactly when the crystal is isotropic |
| Moduli.PoissonIdentities | ellmp.py:133-137 | With the corrected ratio, E = 2G(1+nu) = 3B(1-2nu) |
| Moduli.PoissonAsWrittenBreaksIdentity | ellmp.py:136 | On C11=3, C12=1, C44=1 the ratio as written is 1/3, the corrected one is 1/4, and only 1/4 satisfies E = 2G(1+nu) |
| Scripts.FindFirst | runlmp.py:33 | A match found by re.search lies within the line |
| Scripts.FindFirstFinds | runlmp.py:33 | re.search of a literal key finds its first occurrence, or nothing exactly when the key does not occur |
| Scripts.MatchLen | runlmp.py:42 | The pattern removes at least one character at a digit, '.' or newline, and never more characters than remain |
| Scripts.ScrubClean | runlmp.py:42 | After the substitution no digit, '.' or newline is left |
| Scripts.ScrubPlain | runlmp.py:42 | A text with nothing the pattern matches is left unchanged |
| Scripts.SubInput | runlmp.py:29-45 | sub_input's key loop (search, 'equal' test, rebuild) appends the line rewritten for every key in order |
| Scripts.ModInit | runlmp.py:17-26 | init.mod is two blank lines followed by every line of init0.mod rewritten for every parameter |
| Scripts.Scrub | runlmp.py:42 | Defines re.sub of the pattern with a blank, trying the alternatives in order at each position; ScrubClean and ScrubPlain state what it leaves |
| Scripts.RewriteKey | runlmp.py:33-43 | Defines one key's rewrite of a line; RewriteKeyChanged states what a changed line is made of |
| Scripts.RewriteAll | runlmp.py:32-44 | Defines the line after every key in order; RewriteAllNoKey and RewriteAllNoDeclaration state when it is unchanged |
| Scripts.RewriteKeyChanged | runlmp.py:37-43 | A changed line contains the key, has 'equal' after it, and is the prefix, a cleaned middle, the new value and a newline |
| Scripts.RewriteAllNoKey | runlmp.py:32-44 | A line containing no key passes unchanged |
| Scripts.RewriteAllNoDeclaration | runlmp.py:38-44 | A line with no 'equal' after any key it contains passes unchanged |
| Scripts.NumAtomsLineAsWritten | runlmp.py:53 | As written, a line mentioning 'replicate' becomes exactly "replicate\t n n n " with no trailing newline, and any other line is copied unchanged |
| Scripts.NumAtomsAsWritten | runlmp.py:51-53 | As written, one output string per line of init00.mod, each rewritten on its own |
| Scripts.NumAtomsLineFixed | runlmp.py:53 | Corrected: a line mentioning 'replicate' becomes "replicate\t n n n " followed by a newline, and any other line is copied unchanged |
| Scripts.NumAtomsFixed | runlmp.py:51-53 | Corrected: one output line per line of init00.mod, each rewritten on its own |
| Scripts.ReplicateLineHasNoNewline | runlmp.py:53 | The replacement text holds no newline when n holds none |
| Scripts.NumAtomsKeepsLines | runlmp.py:52-53 | With the corrected rewrite, every output line is still a single newline-terminated line |
| Scripts.NumAtomsNewlines | runlmp.py:49-53 | For an init00.mod of well-formed lines, the corrected init0.mod has one line break per line; as written it has one fewer for every line mentioning 'replicate' |
| Scripts.NumAtomsAsWrittenMergesLines | runlmp.py:53 | As written, "replicate 1 1 1" and the next line merge into one line, while the corrected rewrite keeps two |
| Scripts.InputNames | runlmp.py:58-69 | Mode n has one input script, mode 3n has one per sub-run, and any other mode has none |
| Scripts.MakeMain | runlmp.py:55-84 | In modes n and 3n the input scripts are appended to the file list and the zip name is ensemble.zip, and otherwise the list is unchanged and zipname is unbound |
| Scripts.MakeDirs | runlmp.py:86-103 | pathT is path/newdir/T_T/, and moves happen, one per sub-run, exactly in mode 3n |
| Scripts.LmpSub | runlmp.py:105-128 | One submission per input script of the mode; unsplit, the job runs in the run directory as "jobT"+T and submits in.elastic_<ensemble>; split, job k runs in sub-run k's directory as "jobT"+T+"_"+sub |
| Scripts.RunDirInjective | runlmp.py:89-90 | Different temperatures get different run directories |
| Scripts.SplitRunsAgree | runlmp.py:97-128 | Every split input script is moved into the sub-run directory from which lmp_sub submits it, in the same order, with the command naming that script and job |
| Scripts.SplitRunAt | runlmp.py:120-125 | Sub-run k's move target is the directory of job k, and its command names script k |
| Scripts.SplitRunsDistinct | runlmp.py:98-124 | In split mode the scripts, sub-run directories and job names are pairwise distinct |

## Left out

- The integration of `scipy.stats.t.fit` over the box length and the
  temperature in `fitstr` is left out. The fitted `lx0` and `T` are
  parameters of `Averaging.FitStr`.
- `distav` is left out. It is a probability-distribution fit, not part of
  the averaging modelled here.
- Averaging.MovingMeans: requires every stage to hold at least `window` samples
  (`WindowFits`). For a stage shorter than the window, `numpy.convolve` in
  'valid' mode swaps its arguments, every output entry is sum(stage)/window,
  and moveav stores that value. An empty stage or a zero window makes
  `numpy.convolve` raise. The model states neither case.
- Averaging.StressStrainSlope: on a constant strain, numpy.polyfit returns a
  minimum-norm least-squares solution with a rank warning. The model
  reports `Failure(RankDeficient)` instead.
- Floating point is modelled as exact reals. These are not modelled:
  - float128 and rounding;
  - `savetxt`/`str` formatting and `float()` parsing of text.
  A written value reads back as itself.
- Elastic.Float: a NaN written by `savetxt` reads back as the word `nan`.
  Python's `float()` would accept it, but the model reports `NotANumber`.
- File I/O, `zipfile`, `os.mkdir`, `shutil`, `subprocess`, `chmod`, `cp` and
  `qsub` are left out:
  - files are a map from path to lines, or passed-in line sequences;
  - the actions become returned plans (moves, jobs, command lines).
- `prc_log` and directory changes are left out. They only locate files.
- The iteration order of the Python 2 `parameters` dictionary is arbitrary.
  It is modelled as a given sequence of key/value pairs.
- Scripts.FindFirst: the parameter keys are used by `re.search` as regular
  expressions. The model treats them as literal substrings, which is what the
  program's own keys are.
- Scripts.SubInput: `linesOUT.append` mutates the caller's list in place. The
  model returns the extended list as a value.
- `NiElastic.py`, `vislmp.py` and `del_jobs.py` are not part of this model.
  They are the driver, the plots and the job cleanup.
- The split-mode defects of `fitstr` are modelled as the `NameError` the
  code raises:
  - eta12 and eta44 are commented out;
  - `dirC44` is compared with the sub-run.
  The intent behind them is unclear, so no corrected version is claimed.
- ellmp.py mixes tabs and spaces in `cs`, at lines 30-35 and 80-83. As
  written the module does not import (IndentationError). The model follows
  the evident statement order of those lines.
- The `savetxt` output files of `elprops` are represented by the returned
  sequence of properties, one per temperature.

## Findings

| source | as written | input that shows it | evidently intended | confidence | as-written member | corrected member |
| ellmp.py:136-137 | nu = (3B - G) / (2(3B + G)) | C11 = 3, C12 = 1, C44 = 1: B = 5/3, G = 1, E = 5/2, nu = 1/3, but E = 2G(1+nu) needs 1/4 | nu = (3B - 2G) / (2(3B + G)) | high, not executed | Moduli.ElpropsAsWrittenPoissonOfIsotropic | Moduli.PoissonIdentities |
| runlmp.py:53 | the replacement replicate line has no trailing newline | lines "replicate 1 1 1\n", "run 0\n" with n = "8" become "replicate\t8 8 8 run 0\n" | end the rewritten line with "\n" | medium, not executed | Scripts.NumAtomsAsWrittenMergesLines | Scripts.NumAtomsKeepsLines |
| avlmp.py:43 | imp_data returns log = [], so simpav and moveav compute nl = len(log) = 0, and numpy.zeros((nl-1, nd)) = zeros((-1, nd)) raises | any log.lammps | log holds the stage boundaries of the run | medium, not executed | Averaging.SimpavAsWritten | Averaging.SimpleMeans |
| ellmp.py:120 | numpy.loadtxt without ndmin=2 squeezes a one-row res_Cs.txt, and data[:,0] fails | a res_Cs.txt with a single temperature | load a two-dimensional table | medium, not executed | Moduli.ElpropsAsWrittenOneRow | Moduli.ElpropsOfWritten |
