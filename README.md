# Real-Time Data Visualiser and Logger — a Dafny model

The application shows a grid of live graphs. Each graph plots one named
waveform, such as sine, cosine, tangent, their reciprocals, a triangle or a
square wave. It can zoom its view about the centre and log the plotted curve
to a CSV file every 500 ms. A "Set" field replaces the grid with a given
number of graphs, and global buttons start, stop or reset all of them. A
dialog lets the user enter axis ranges. The main window combines two signals
with an operation and previews the expression. A background worker emits
samples `(t, y1, y2)` for two named signals at a fixed time step.

This project models that core in Dafny, one module per source file:

- `Periodic` holds what both waveform catalogues share. The math primitives
  (`sin`, `cos`, `tan`, `pi`) are a `Trig` record passed as a parameter.
  It also holds Python's `t % 1` and the triangle and square shapes.
- `GuardedPlotting` models the numpy catalogue behind the graph widgets
  (`graph_plotting_functionalities/plotting.py`). NaN from `safe_div` is
  `None`.
- `ScalarPlotting` models the scalar catalogue behind the worker
  (`src/plotting.py`). The `ZeroDivisionError` of `1 / x` is `None`.
- `MathFunctions` models the name and operation dispatch of
  `compute_expression`, with numpy broadcasting of length-1 arrays.
- `Worker` models `DataWorker`. It is a class whose `Tick` is one iteration
  of the `while self.running` loop. A ghost history of emitted samples is
  tied to the specification function `Trace`.
- `Logger` models `DataLogger` over a file store, a map from path to
  records. `logg_csv` is a loop that appends the zipped rows, proved equal
  to the function `AfterCsv`.
- `Widget` models `GraphWidget`: zoom, colour, starting and stopping
  logging, periodic logging, and the plot controls.
- `Layout` models `Generate_Graph`: the set button and the global controls.
- `AxisRange` models `AxisRangeDialog`.
- `Window` models the input and preview part of `MainWindow`.
- `Text` holds the parts of Python's `str` behaviour the code relies on:
  `strip`, `int()`, `float()`, `str(int)` and `replace`. `Common` holds
  `Option`.

## Model

| member | source | states |
|---|---|---|
| Periodic.Mod1 | graph_plotting_functionalities/plotting.py:52 | `t % 1` lies in [0, 1) and differs from t by a whole number |
| Periodic.Mod1Shift | src/plotting.py:23 | `t % 1` is unchanged when t moves by a whole number of periods |
| Periodic.Mod1ZeroIff | src/plotting.py:27 | `t % 1` is 0 exactly at whole t |
| Periodic.TriangleWave | graph_plotting_functionalities/plotting.py:51-52 | the triangle wave stays within [-1, 1] |
| Periodic.SquareWave | graph_plotting_functionalities/plotting.py:55-56 | the square wave is 1 or -1, and 1 exactly when `t % 1 < 0.5` |
| Periodic.TrianglePiecewise | src/plotting.py:21-23 | the triangle equals the piecewise-linear wave `1 - 4u` on [0, 0.5) and `4u - 3` on [0.5, 1), where u = `t % 1` |
| Periodic.TriangleExtremes | src/plotting.py:21-23 | the triangle is 1 exactly at whole t and -1 exactly at half-integers |
| Periodic.TrianglePeriodic | graph_plotting_functionalities/plotting.py:51-52 | the triangle wave has period 1 |
| Periodic.SquarePeriodic | graph_plotting_functionalities/plotting.py:55-56 | the square wave has period 1 |
| Periodic.TriangleEven | src/plotting.py:21-23 | the triangle wave is symmetric about t = 0 |
| GuardedPlotting.SafeDiv | graph_plotting_functionalities/plotting.py:3-7 | the result is NaN exactly when abs(denom) <= 1e-5; otherwise it times denom gives num |
| GuardedPlotting.Point | graph_plotting_functionalities/plotting.py:10-56 | NaN only for tan, cosec, sec and cot, exactly when their denominator is within 1e-5 of zero; triangle is in [-1, 1]; square is ±1, and 1 exactly in the first half of each period |
| GuardedPlotting.PointSolvesQuotient | graph_plotting_functionalities/plotting.py:6-48 | a defined tan, cot, sec or cosec value times its denominator gives the numerator |
| GuardedPlotting.Graph | graph_plotting_functionalities/plotting.py:27-56 | a waveform applied to an array gives an array of the same length, element i being the waveform at time i |
| GuardedPlotting.ShapesPeriodic | graph_plotting_functionalities/plotting.py:51-56 | shifting every time by one period leaves the triangle and square arrays unchanged |
| GuardedPlotting.OnlyDivisionsUndefined | graph_plotting_functionalities/plotting.py:35-48 | only tan, cosec, sec and cot ever yield NaN |
| GuardedPlotting.SignalEntries | graph_plotting_functionalities/plotting.py:59-69 | `Signal_list` has nine entries in insertion order |
| GuardedPlotting.SignalKeys | graph_plotting_functionalities/plotting.py:59-69 | the key list has nine distinct names, in insertion order |
| GuardedPlotting.SignalList | graph_plotting_functionalities/plotting.py:59-69 | `Signal_list` has exactly the nine keys, each mapped to its waveform |
| GuardedPlotting.SignalKeysAreKeys | graph_plotting_functionalities/plotting.py:59-69 | every key of the ordered key list is a key of the dictionary |
| GuardedPlotting.KeysAreListed | graph_plotting_functionalities/plotting.py:59-69 | every key of the dictionary appears in the ordered key list; with SignalKeysAreKeys the two are the same set |
| ScalarPlotting.Eval | src/plotting.py:3-27 | cosec, sec and cot raise exactly when their divisor is 0; sine, cosine, tangent, triangle and square never raise; triangle is in [-1, 1]; square is ±1, and 1 exactly in the first half of each period |
| ScalarPlotting.EvalSolvesReciprocal | src/plotting.py:12-19 | a defined cosec, sec or cot value times its divisor gives 1 |
| ScalarPlotting.Reciprocal | src/plotting.py:13 | `1 / x` raises exactly at x = 0; otherwise it times x gives 1 |
| ScalarPlotting.ShapeLandmarks | src/plotting.py:21-27 | triangle and square are 1 at whole t and -1 half a period later |
| MathFunctions.GetSignalName | src/math_functions.py:4-15 | a waveform for exactly the eight names, each bound to its own ("Sin" to sine, "Cos" to cosine, … "Square" to square); None for any other name |
| MathFunctions.SignalNamesDistinct | src/math_functions.py:5-14 | distinct known names select distinct waveforms |
| MathFunctions.OperationMap | src/math_functions.py:18-30 | `operation_map` has exactly the eleven operation keys, each bound to its own operation |
| MathFunctions.ZipWith | src/math_functions.py:19-22 | an element-wise binary operation raises exactly when the arrays do not broadcast; otherwise it has the broadcast length and combines elements pairwise |
| MathFunctions.Map | src/math_functions.py:23-24 | an element-wise unary operation keeps the length and applies f per element |
| MathFunctions.DivideOrZero | src/math_functions.py:22 | division gives 0 where the divisor is 0, and otherwise a quotient that times the divisor gives the dividend |
| MathFunctions.ApplyOperation | src/math_functions.py:18-30 | the unary operations never raise; "A + k" and "B * k" raise exactly when the constant is not a number, and "A + B + k" raises exactly when the constant is not a number or A and B do not broadcast; the other binary ones raise exactly when A and B do not broadcast (for "A / B", also when B would stretch A) |
| MathFunctions.ComputeExpression | src/math_functions.py:33-53 | None for an unknown signal name or operation; with both names known and the operation listed, None exactly when the operation's lambda raises on the two signals, and otherwise t unchanged beside the array that lambda computes |
| MathFunctions.DivideElementwise | src/math_functions.py:22 | the "A / B" lambda on equal lengths succeeds, with 0 where B is 0 and a quotient that times B gives A elsewhere |
| MathFunctions.DivisionByZeroGivesZero | src/math_functions.py:22 | "A / B" on equal-length (float) signals always succeeds, with 0 where B is 0 and A/B elsewhere |
| MathFunctions.ArithmeticIsElementwise | src/math_functions.py:19-21 | "A + B", "A - B" and "A * B" on equal lengths succeed and act element by element |
| MathFunctions.TrigOperations | src/math_functions.py:23-25 | "sin(A)" gives sin A[i] and "cos(B)" gives cos B[i] at every index; "sin(A) + 2*B" on equal lengths succeeds with sin A[i] + 2 B[i] at index i |
| MathFunctions.ConstantOperations | src/math_functions.py:26-29 | "A + k", "B * k", "A + B + k" and "A ^ 2" with a numeric constant act element by element |
| Worker.SignalWaves | src/data_worker.py:17-26 | `signal_map` has exactly the eight names Sine … Triangle, each naming its waveform |
| Worker.SignalMap | src/data_worker.py:17-26 | calling an entry of `signal_map` evaluates that waveform from `src/plotting.py` |
| Worker.Amplitude | src/data_worker.py:33-37 | `signal_map.get(name, lambda t: 0)(t)` can raise only for a name the map knows; UnknownNamesEmitZeros gives 0 for the others |
| Worker.Emission | src/data_worker.py:33-39 | one iteration emits exactly when no named waveform raises; the sample carries t; an unknown name contributes 0 |
| Worker.Clock | src/data_worker.py:30-41 | `self.t` after k additions of dt from 0 is never negative for dt >= 0; ClockIsProduct gives k*dt |
| Worker.ClockIsProduct | src/data_worker.py:30-41 | after k steps of `self.t += self.dt` from 0, t is k*dt |
| Worker.ClockIncreasing | src/data_worker.py:41 | with dt > 0 the clock strictly increases |
| Worker.Prefix | src/data_worker.py:32-42 | a run of n iterations stops early only at an iteration that raises |
| Worker.PrefixSample | src/data_worker.py:32-42 | sample k of a run is what iteration k produces |
| Worker.PrefixStuck | src/data_worker.py:32-42 | once a run has raised, more iterations add nothing |
| Worker.Trace | src/data_worker.py:32-42 | an unstopped run emits at most n samples, and stops early only at an iteration whose waveform raises |
| Worker.TraceSample | src/data_worker.py:33-39 | sample k of an unstopped run is the emission at time k*dt |
| Worker.TraceStep | src/data_worker.py:32-42 | one more iteration appends its emission, or ends the run when it raises |
| Worker.TraceStuck | src/data_worker.py:32-42 | after the loop has raised, no further sample is emitted |
| Worker.TraceTimes | src/data_worker.py:30-41 | the k-th emitted sample is stamped k*dt |
| Worker.TraceTimesIncrease | src/data_worker.py:39-41 | with dt > 0 the emitted time stamps strictly increase |
| Worker.UnknownNamesEmitZeros | src/data_worker.py:33-34 | two unknown names emit every iteration, with both amplitudes 0 |
| Worker.EmissionUsesCatalogue | src/data_worker.py:17-39 | with the real map, an iteration emits exactly when neither waveform raises, and it emits their values |
| Worker.CosecantNeverEmits | src/data_worker.py:30-39 | with sin 0 = 0, a run whose first signal is "Cosecant" raises at t = 0 and emits nothing |
| Worker.ShapesRunForever | src/data_worker.py:32-42 | a Triangle/Square run emits at every iteration, with y1 in [-1, 1] and y2 = ±1 |
| Worker.DataWorker.constructor | src/data_worker.py:11-26 | a new worker is not running, has t = 0, and holds the catalogue map and the step |
| Worker.DataWorker.StartWork | src/data_worker.py:28-42 | the flag is set and t restarts at 0 whatever it was; the samples emitted are exactly `Trace` of n iterations, and t ends at the time of the iteration after the last sample |
| Worker.DataWorker.Restart | src/data_worker.py:28-30 | the flag is set, the two names taken and t reset to 0, starting an empty run |
| Worker.DataWorker.Tick | src/data_worker.py:32-42 | one iteration: idle when the flag is clear; otherwise it emits the emission at t and advances t by dt, or it raises, exactly when the emission at t is undefined, and changes nothing; the history stays a run |
| Worker.DataWorker.Loop | src/data_worker.py:32-42 | a cleared flag emits nothing; otherwise at most n samples are appended to the run, and fewer only when the iteration at the current t raises |
| Worker.RunIsTrace | src/data_worker.py:32-42 | a run of at most n samples that stops short only where the next iteration raises is exactly `Trace` of n |
| Worker.TraceIsRun | src/data_worker.py:32-42 | sample k of `Trace` is the emission at time k*dt, so `Trace` is a run |
| Worker.DataWorker.StopWork | src/data_worker.py:44-45 | the flag is cleared and nothing else changes |
| Logger.JoinPath | src/data_logger.py:27 | `os.path.join` with an empty directory gives the name itself, and the path is never shorter than the name; JoinPathPlacesName says where the name goes |
| Logger.JoinPathPlacesName | src/data_logger.py:27 | `os.path.join`: an absolute name replaces the directory; a relative one is put under it, the path starting with the directory |
| Logger.DataLogger.DataPath | src/data_logger.py:27 | the logger's data file is a path ending in ".csv" and at least four characters longer than the signal name |
| Logger.JoinPathEndsWithName | src/data_logger.py:27 | the joined path ends with the file name |
| Logger.JoinPathInjective | src/data_logger.py:27 | names of different lengths (both relative or both absolute) join to different paths |
| Logger.ZipRows | src/data_logger.py:30-31 | the rows of `zip(x, y)` are as many as the shorter array, row i being [x[i], y[i]] |
| Logger.ZipRowsAreNumeric | src/data_logger.py:30-31 | every logged row holds exactly two numbers |
| Logger.ZipRowsPrefix | src/data_logger.py:30-31 | zipping longer arrays writes the shorter arrays' rows first |
| Logger.FileStore.constructor | src/data_logger.py:28 | the store holds the given files |
| Logger.Curve.constructor | src/data_logger.py:16 | the curve holds the given arrays |
| Logger.DataLogger.constructor | src/data_logger.py:5-8 | the logger keeps the curve, the signal name and the directory |
| Logger.DataLogger.LoggCsv | src/data_logger.py:10-33 | the file system becomes `AfterCsv` of what it was: unchanged without a curve or data, otherwise the zipped rows appended to `{signal}.csv` |
| Logger.DataLogger.LoggBinary | src/data_logger.py:35-37 | nothing is written |
| Logger.AfterCsvAppends | src/data_logger.py:24-31 | appending never loses data: every file keeps its records as a prefix, only the data file changes, and it grows by the length of the shorter array |
| Logger.AfterCsvMissingData | src/data_logger.py:11-22 | without a curve or either array, nothing is written |
| Widget.ZoomFactor | graph_plotting_functionalities/graph_widget.py:239 | zooming in halves the width and zooming out doubles it |
| Widget.Zoom | graph_plotting_functionalities/graph_widget.py:243-251 | a zoomed axis keeps its centre, and its width is multiplied by the factor |
| Widget.ZoomRoundTrip | graph_plotting_functionalities/graph_widget.py:229-251 | zooming in and then out (or out and then in) restores the range |
| Widget.ApplyZoomRanges | graph_plotting_functionalities/graph_widget.py:238-251 | "X Axis" zooms x only, "Y Axis" zooms y only, "Both" zooms both, and any other mode changes neither |
| Widget.GenerateColor | graph_plotting_functionalities/graph_widget.py:186-187 | the colour is '#' followed by six hex digits |
| Widget.GenerateColorDecodes | graph_plotting_functionalities/graph_widget.py:186-187 | the six digits decode to the six draws |
| Widget.HeaderName | graph_plotting_functionalities/graph_widget.py:264 | the header file name ends in ".csv" and is at least six characters longer than the signal name, so it is never `{signal}.csv` (HeaderFileIsNotDataFile) |
| Widget.HeaderFileIsNotDataFile | graph_plotting_functionalities/graph_widget.py:264-273 | the header file `{signal}_{id}.csv` is never the file the logger appends to |
| Widget.GraphWidget.constructor | graph_plotting_functionalities/graph_widget.py:30-49 | a new widget has an empty curve, no logger and is not logging; "Start Log" is enabled and "Stop Log" disabled |
| Widget.GraphWidget.StartLogging | graph_plotting_functionalities/graph_widget.py:253-277 | with no folder or no format nothing changes; otherwise the header file is written as CSV or binary, a new logger is made, and logging is on with the buttons swapped |
| Widget.GraphWidget.WriteHeader | graph_plotting_functionalities/graph_widget.py:266-271 | the files become HeaderWritten: "CSV" overwrites the header file with the header row, "Binary" with two zeros, any other format writes nothing |
| Widget.GraphWidget.BeginLogging | graph_plotting_functionalities/graph_widget.py:273-277 | a new logger on the widget's curve, signal and folder; logging on, timer running, only "Stop Log" enabled |
| Widget.HeaderLeavesDataFile | graph_plotting_functionalities/graph_widget.py:264-271 | writing the header leaves the logger's data file as it was, and a CSV or binary header file holds exactly one record |
| Widget.GraphWidget.StopLogging | graph_plotting_functionalities/graph_widget.py:279-283 | from any state, logging and the timer stop; "Start Log" is enabled and "Stop Log" disabled |
| Widget.GraphWidget.LogPeriodically | graph_plotting_functionalities/graph_widget.py:51-56 | only while logging with a logger and the "CSV" format does the data file grow, as `AfterCsv`; otherwise nothing is written |
| Widget.GraphWidget.ApplyZoom | graph_plotting_functionalities/graph_widget.py:238-251 | the view ranges become `ApplyZoomRanges` of the mode, the direction and the old ranges |
| Widget.GraphWidget.StartPlot | graph_plotting_functionalities/graph_widget.py:210-213 | the plot is running |
| Widget.GraphWidget.StopPlot | graph_plotting_functionalities/graph_widget.py:215-220 | the plot is stopped |
| Widget.GraphWidget.ResetPlot | graph_plotting_functionalities/graph_widget.py:222-227 | the plot is stopped and the curve replaced by a new, empty one |
| Layout.Assignment | graph_plotting_functionalities/Graph_Layout.py:66-70 | n graphs get n (id, signal) pairs |
| Layout.AssignmentRoundRobin | graph_plotting_functionalities/Graph_Layout.py:68-70 | ids increase, and two graphs share a signal exactly when their positions agree modulo nine |
| Layout.AssignedSignalsAreKeys | graph_plotting_functionalities/Graph_Layout.py:66-70 | every assigned signal is a key of `Signal_list` |
| Layout.AllSignalsAssigned | graph_plotting_functionalities/Graph_Layout.py:66-70 | with at least nine graphs, every waveform is shown by some graph |
| Layout.FirstNineInOrder | graph_plotting_functionalities/Graph_Layout.py:69 | graph i < 9 shows the i-th key |
| Layout.GenerateGraph.constructor | graph_plotting_functionalities/Graph_Layout.py:52 | a new panel has no graphs |
| Layout.GenerateGraph.OnSetClicked | graph_plotting_functionalities/Graph_Layout.py:52-75 | text `int()` rejects, or a count <= 0, leaves the graphs as they were; otherwise exactly that many new, distinct widgets with the round-robin ids and signals, each as its constructor leaves it: no logger, not logging, log controls consistent, no worker running |
| Layout.GenerateGraph.SetGraphs | graph_plotting_functionalities/Graph_Layout.py:63-75 | the graphs become exactly n new, distinct widgets, graph i with the id and signal of `Assignment`, each with no logger, not logging, log controls consistent and no worker running |
| Layout.GenerateGraph.NewGraphs | graph_plotting_functionalities/Graph_Layout.py:65-72 | the loop makes `total` new, distinct widgets, graph i with id i + 1 and the key at position i mod 9, each with no logger, not logging, log controls consistent and no worker running |
| Layout.GenerateGraph.StartAll | graph_plotting_functionalities/Graph_Layout.py:79-81 | every graph is running; its curve, logging flag, timer, log buttons, logger, fields and view ranges are as they were |
| Layout.GenerateGraph.StopAll | graph_plotting_functionalities/Graph_Layout.py:83-85 | every graph is stopped; its curve, logging flag, timer, log buttons, logger, fields and view ranges are as they were |
| Layout.GenerateGraph.ResetAll | graph_plotting_functionalities/Graph_Layout.py:87-89 | every graph is stopped with a new, empty curve; its logging flag, timer, log buttons, logger, fields and view ranges are as they were |
| Layout.GenerateGraph.StopLoggingAll | graph_plotting_functionalities/Graph_Layout.py:97-99 | from any state, logging stops on every graph, with the controls consistent; its curve, plot state, logger, fields and view ranges are as they were |
| AxisRange.ValidateRanges | graph_plotting_functionalities/AxisRangeDialog.py:76-94 | rejected as non-numeric exactly when a field is not a float; accepted bounds are the parsed values and ordered; "minimum above maximum" only on a strict violation |
| AxisRange.EqualBoundsAccepted | graph_plotting_functionalities/AxisRangeDialog.py:86 | a minimum equal to its maximum is accepted |
| AxisRange.ValidateNumbers | graph_plotting_functionalities/AxisRangeDialog.py:76-94 | four numeric fields are accepted with exactly their values when ordered, and otherwise rejected as "minimum above maximum" |
| AxisRange.IntegerBounds | graph_plotting_functionalities/AxisRangeDialog.py:76-94 | whole-number texts are accepted exactly when each minimum is at most its maximum |
| AxisRange.AxisRangeDialog.constructor | graph_plotting_functionalities/AxisRangeDialog.py:19-30 | a new dialog has empty fields and nothing stored |
| AxisRange.AxisRangeDialog.OnApplyClicked | graph_plotting_functionalities/AxisRangeDialog.py:76-94 | on rejection nothing is stored and the dialog stays open; on acceptance the four values are stored and the dialog accepted; stored bounds stay ordered |
| AxisRange.AxisRangeDialog.OnCancelClicked | graph_plotting_functionalities/AxisRangeDialog.py:96-97 | the dialog is rejected |
| AxisRange.AxisRangeDialog.OnResetClicked | graph_plotting_functionalities/AxisRangeDialog.py:99-103 | the four fields are emptied and the stored bounds kept |
| AxisRange.AxisRangeDialog.GetRanges | graph_plotting_functionalities/AxisRangeDialog.py:105-106 | the stored bounds, each minimum at most its maximum; None (AttributeError) before any accepted apply |
| Window.GetUserInput | ui/main_window.py:159-169 | None exactly when either selector shows the placeholder; otherwise the selections unchanged and the constants exactly `Strip` of the field's text, with no white space at either end |
| Window.Preview | ui/main_window.py:181-182 | the constants suffix appears exactly when constants were given |
| Window.Expression | ui/main_window.py:176-179 | an infix operation gives "{A} op {B}", three characters longer than the two names; an operation text without 'A' or 'B' is shown as it is; InfixPreview and TemplatePreview state the two forms |
| Window.InfixPreview | ui/main_window.py:176-177 | the four infix operations preview as "{A} op {B}" |
| Window.TemplatePreview | ui/main_window.py:178-179 | other operations preview as the single-pass substitution of both names, provided signal A's name has no 'B' |
| Window.SelectablePreview | ui/main_window.py:64-68 | for every signal the selector offers, the template preview is the single-pass substitution |
| Window.SecondReplaceReachesFirstName | ui/main_window.py:179 | a 'B' inside signal A's name is replaced again by the second `replace` |
| Window.MainWindow.constructor | ui/main_window.py:62-99 | the selectors start on their first entries, with the constants and preview fields empty |
| Window.MainWindow.OnPreviewClicked | ui/main_window.py:171-184 | a rejected input or an empty signal A leaves the preview as it was; otherwise it shows `Preview` of the input |
| Text.Strip | ui/main_window.py:163 | `strip()` neither lengthens the text nor leaves white space at either end, and it keeps text that has none there |
| Text.StripRemovesOnlySpace | ui/main_window.py:163 | `strip()` gives a contiguous piece of the text, with only white space before and after it |
| Text.IntToDecimal | graph_plotting_functionalities/graph_widget.py:264 | `str(i)` is non-empty, ends with a digit, and starts with '-' exactly for negative i |
| Text.NatToDecimal | graph_plotting_functionalities/graph_widget.py:264 | the decimal digits of n have value n and no leading zero |
| Text.ParseIntRoundTrip | graph_plotting_functionalities/Graph_Layout.py:54 | `int(str(i)) == i` |
| Text.ParseInt | graph_plotting_functionalities/Graph_Layout.py:54 | `int()` rejects blank text, and a negative result comes only from a leading '-'; ParseIntRoundTrip gives `int(str(i)) == i` |
| Text.FractionValue | graph_plotting_functionalities/AxisRangeDialog.py:78-81 | the digits after the decimal point of a `float()` text add a fraction in [0, 1) |
| Text.ParseRealExtendsParseInt | graph_plotting_functionalities/AxisRangeDialog.py:78-81 | what `int()` accepts, `float()` accepts with the same value |
| Text.ParseReal | graph_plotting_functionalities/AxisRangeDialog.py:78-81 | `float()` rejects blank text, and a negative result comes only from a leading '-'; ParseRealExtendsParseInt ties it to `int()` |
| Text.ReplaceChar | ui/main_window.py:179 | `replace` changes nothing when the character is absent, leaves none behind when the replacement lacks it, and introduces only characters of the text or the replacement |
| Text.ReplaceCharAppend | ui/main_window.py:179 | `replace` distributes over concatenation |
| Text.ReplaceTwiceIsSubstitute | ui/main_window.py:179 | replacing 'A' and then 'B' equals one-pass substitution when A's text has no 'B' |

## Left out

- Drawing, layouts, message boxes, `print` messages, the folder picker and
  `eventFilter`, `auto_scale`, `create_button_row` and the playback widgets
  are user interface with no logic to model.
- Threads, `QTimer`, `time.sleep` and Qt signals are left out. The worker loop
  is a method that runs n iterations, and the 500 ms timer is the `timerActive`
  flag. `GraphWidget` keeps only a `plotRunning` flag for its worker thread.
- Floating-point arithmetic is left out. Reals are exact, and `sin`, `cos`,
  `tan` and `pi` are parameters (`Trig`) with no properties assumed.
  Properties that need `sin 0 = 0` take it as a precondition.
- `random_mixed_signal`'s noise and spikes are one parameter `draw(i)` added to
  the sine. `generate_color`'s six random choices are the parameter `picks`.
- `int()` and `float()` accept ASCII digits with an optional sign and white
  space around. Underscores, non-ASCII digits, exponents, `inf` and `nan` are
  not modelled. With `nan`, the dialog's `x_min > x_max` test would pass
  unordered bounds.
- `on_calculate_plot` and `update_plot` only plot the result of
  `compute_expression`. The signal arrays that dispatch evaluates come from a
  module that is not part of this model, so `ComputeExpression` takes them as
  the parameter `signal`. Those arrays are taken to be float arrays: with an
  integer array A (a square wave built with `np.where(..., 1, -1)`), the
  integer `out` buffer of "A / B" makes `np.divide` raise a casting error,
  which `compute_expression` turns into None, so
  `DivisionByZeroGivesZero`'s success holds only for float signals.
- MathFunctions.ComputeExpression: the calls `signalA(t)` and `signalB(t)`
  run outside the `try`, so an exception there leaves `compute_expression`
  instead of giving None. The model assumes those two calls never raise
  (`signal` is a total function), so it does not capture that escape, such
  as the cosec and sec failure on a time array described under
  GuardedPlotting.Graph.
- `start_logging_all` is left out: it passes two arguments to
  `start_logging`, which takes none. `GraphWidget.setup_worker` passes a
  `signal_func` that `DataWorker.__init__` does not accept. Neither call can
  run as written.
- `os.makedirs`, the `AttributeError` branch of `logg_csv`, and file opening
  errors are left out. The file system is a map that always accepts writes.
- GuardedPlotting.Graph: applies each waveform element by element. In the
  source, `cosec_graph` and `sec_graph` pass the scalar numerator 1 to
  `safe_div`, so its `out` buffer `np.full_like(1, ...)` has no dimensions,
  and `np.divide` raises ValueError for any one-dimensional time array. The
  model gives those two waveforms element-wise values instead of that error.
- Logger.DataLogger.LoggBinary: the source is a placeholder, so the contract
  says only that nothing is written.
- Widget.GraphWidget.ApplyZoom: pyqtgraph's `setXRange` padding is not
  modelled; the new range is exactly the computed one.
- Widget.GraphWidget.constructor: the initial view range (0 to 1 on both
  axes) is an assumption; pyqtgraph's default range is not part of this model.
- Worker.DataWorker.Loop: only the first n iterations of the unbounded loop
  are modelled, and a run is restarted only through `StartWork`.
- Worker.DataWorker.StartWork: the `data_ready` signal is the returned
  sequence of samples, and `time.sleep(self.dt)` is left out. With it, a
  negative `dt` makes the source emit one sample and then raise ValueError
  from `time.sleep`; the model emits up to n samples for any real `dt`.
