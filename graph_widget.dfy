/** The logic of one graph widget: zooming the view about its centre, the
    start/stop logging state machine with its header file, the periodic
    logging dispatch, the random pen colour and the plot start/stop/reset
    flags. Widgets, layouts, timers and threads are reduced to the fields
    they read and write. */
module Widget {
  import opened Common
  import opened Text
  import opened GuardedPlotting
  import opened Logger

  /** A view range [lo, hi] on one axis, as `viewRange()` reports it. */
  datatype Range = Range(lo: real, hi: real)

  function Center(r: Range): real
  {
    (r.lo + r.hi) / 2.0
  }

  function Width(r: Range): real
  {
    r.hi - r.lo
  }

  /** `0.5 if zoom_in else 2`. */
  function ZoomFactor(zoomIn: bool): (f: real)
    ensures f > 0.0
    ensures zoomIn ==> f == 0.5
    ensures !zoomIn ==> f == 2.0
  {
    if zoomIn then 0.5 else 2.0
  }

  /** The new range of one zoomed axis: same centre, width times the factor. */
  function Zoom(r: Range, factor: real): (z: Range)
    ensures Center(z) == Center(r)
    ensures Width(z) == Width(r) * factor
  {
    var c := Center(r);
    var w := Width(r) * factor;
    Range(c - w / 2.0, c + w / 2.0)
  }

  /** Zooming in and then out (or out and then in) restores the range. */
  lemma {:induction false} ZoomRoundTrip(r: Range, zoomIn: bool)
    ensures Zoom(Zoom(r, ZoomFactor(zoomIn)), ZoomFactor(!zoomIn)) == r
  {
    var z := Zoom(r, ZoomFactor(zoomIn));
    var back := Zoom(z, ZoomFactor(!zoomIn));
    assert Width(z) * ZoomFactor(!zoomIn) == Width(r);
    assert Center(back) == Center(r) && Width(back) == Width(r);
  }

  /** The (x, y) view ranges after `apply_zoom(zoom_in)` with the axis
      selector showing `mode`: "X Axis" and "Both" zoom x, "Y Axis" and
      "Both" zoom y, any other text leaves the ranges alone. */
  function ApplyZoomRanges(mode: string, zoomIn: bool, x: Range, y: Range): (r: (Range, Range))
    ensures mode == "X Axis" ==> r.1 == y && Center(r.0) == Center(x) && Width(r.0) == Width(x) * ZoomFactor(zoomIn)
    ensures mode == "Y Axis" ==> r.0 == x && Center(r.1) == Center(y) && Width(r.1) == Width(y) * ZoomFactor(zoomIn)
    ensures mode == "Both" ==>
      Center(r.0) == Center(x) && Width(r.0) == Width(x) * ZoomFactor(zoomIn)
      && Center(r.1) == Center(y) && Width(r.1) == Width(y) * ZoomFactor(zoomIn)
    ensures mode !in {"X Axis", "Y Axis", "Both"} ==> r == (x, y)
  {
    var factor := ZoomFactor(zoomIn);
    var x' := if mode in ["X Axis", "Both"] then Zoom(x, factor) else x;
    var y' := if mode in ["Y Axis", "Both"] then Zoom(y, factor) else y;
    (x', y')
  }

  /** The sixteen characters `random.choice` picks a colour digit from. */
  const HexDigits: string := "0123456789ABCDEF"

  /** The value of one colour digit: its position in HexDigits. */
  function HexValue(c: char): int
  {
    if '0' <= c <= '9' then c as int - '0' as int else c as int - 'A' as int + 10
  }

  /** `generate_color()`: '#' followed by six digits; `picks` are the six
      positions `random.choice` draws in HexDigits. */
  function GenerateColor(picks: seq<nat>): (c: string)
    requires |picks| == 6 && forall i :: 0 <= i < 6 ==> picks[i] < 16
    ensures |c| == 7 && c[0] == '#'
    ensures forall i :: 1 <= i < 7 ==> c[i] in HexDigits
  {
    "#" + seq(6, i requires 0 <= i < 6 => HexDigits[picks[i]])
  }

  /** The colour encodes the draws: reading its six digits back gives the
      draws, so every draw gives a different colour. */
  lemma {:induction false} GenerateColorDecodes(picks: seq<nat>)
    requires |picks| == 6 && forall i :: 0 <= i < 6 ==> picks[i] < 16
    ensures var c := GenerateColor(picks); forall i :: 0 <= i < 6 ==> HexValue(c[i + 1]) == picks[i]
  {
    var c := GenerateColor(picks);
    forall i | 0 <= i < 6
      ensures HexValue(c[i + 1]) == picks[i]
    {
      assert c[i + 1] == HexDigits[picks[i]];
      var d := picks[i];
      assert d < 16;
      if d < 10 {
        assert HexDigits[d] as int == '0' as int + d;
      } else {
        assert HexDigits[d] as int == 'A' as int + d - 10;
      }
    }
  }

  /** The file `start_logging` writes its header to:
      `{signal_name}_{graph_id}.csv`. */
  function HeaderName(signalName: string, graphId: int): (h: string)
    ensures |h| >= |signalName| + 6 && h[|h| - 4..] == ".csv"
  {
    signalName + "_" + IntToDecimal(graphId) + ".csv"
  }

  /** The header goes to a different file from the one the logger appends
      data to (`{signal_name}.csv` in the same folder), so the data file
      never receives the header row. */
  lemma HeaderFileIsNotDataFile(folder: string, signalName: string, graphId: int)
    ensures JoinPath(folder, HeaderName(signalName, graphId)) != JoinPath(folder, signalName + ".csv")
  {
    var h := HeaderName(signalName, graphId);
    var d := signalName + ".csv";
    if |signalName| > 0 {
      assert h[0] == signalName[0] == d[0];
    } else {
      assert h[0] == '_' && d[0] == '.';
    }
    JoinPathInjective(folder, h, d);
  }

  /** The CSV header row. */
  const Header: Record := Row([Label("Time (s)"), Label("Amplitude")])

  /** The files after `start_logging` writes its header to `path`: "CSV"
      overwrites the file with the header row, "Binary" with one record of
      two zeros, and any other format writes nothing. */
  function HeaderWritten(files: map<string, seq<Record>>, path: string, format: string): map<string, seq<Record>>
  {
    if format == "CSV" then files[path := [Header]]
    else if format == "Binary" then files[path := [PackedPair(0.0, 0.0)]]
    else files
  }

  /** Writing the header touches only the header file: every other file
      keeps its records, in particular the data file the logger appends to,
      and a "CSV" or "Binary" header file holds exactly one record. */
  lemma {:induction false} HeaderLeavesDataFile(files: map<string, seq<Record>>, folder: string,
                                                 signalName: string, graphId: int, format: string)
    ensures var header := JoinPath(folder, HeaderName(signalName, graphId));
            var data := JoinPath(folder, signalName + ".csv");
            var after := HeaderWritten(files, header, format);
            Existing(after, data) == Existing(files, data)
            && (format == "CSV" || format == "Binary" ==> |Existing(after, header)| == 1)
  {
    HeaderFileIsNotDataFile(folder, signalName, graphId);
  }

  class GraphWidget {
    const graphId: int
    const signalName: string
    /** The plotted curve; `reset_plot` replaces it with a fresh one. */
    var curve: Curve
    /** `self.logger`: None until logging first starts. */
    var logger: DataLogger?
    var isLogging: bool
    /** Whether the 500 ms logging timer is running. */
    var timerActive: bool
    var startLogEnabled: bool
    var stopLogEnabled: bool
    /** The text of the destination field and of the two selectors. */
    var destination: string
    var logFormat: string
    var zoomMode: string
    /** The view ranges of the plot. */
    var xRange: Range
    var yRange: Range
    /** Whether the worker thread is running. */
    var plotRunning: bool

    /** What neither the plot controls nor `stop_logging` touch: the
        logger, the destination and format fields, the zoom mode and the
        view ranges. */
    function Settings(): (DataLogger?, string, string, string, Range, Range)
      reads this
    {
      (logger, destination, logFormat, zoomMode, xRange, yRange)
    }

    /** The logging flag, the timer and the two log buttons. */
    function LogState(): (bool, bool, bool, bool)
      reads this
    {
      (isLogging, timerActive, startLogEnabled, stopLogEnabled)
    }

    /** The logging controls agree with the flag: while logging, the timer
        runs, only "Stop Log" is enabled and a logger exists; otherwise the
        timer is stopped and only "Start Log" is enabled. */
    predicate LogControlsAgree()
      reads this
    {
      timerActive == isLogging
      && startLogEnabled == !isLogging
      && stopLogEnabled == isLogging
      && (isLogging ==> logger != null)
    }

    /** A new widget: an empty curve, no logger, not logging, "Start Log"
        enabled and "Stop Log" disabled, no destination, the first entries
        of the two selectors, the plot's initial view [0, 1] x [0, 1] and no
        worker running. The signal must be a key of `Signal_list`. */
    constructor (graphId: int, signalName: string)
      requires signalName in SignalList()
      ensures LogControlsAgree()
      ensures this.graphId == graphId && this.signalName == signalName
      ensures curve.xData == Some([]) && curve.yData == Some([]) && fresh(curve)
      ensures logger == null && !isLogging && startLogEnabled && !stopLogEnabled
      ensures destination == "" && logFormat == "Select format" && zoomMode == "X Axis"
      ensures xRange == Range(0.0, 1.0) && yRange == Range(0.0, 1.0) && !plotRunning
    {
      this.graphId := graphId;
      this.signalName := signalName;
      curve := new Curve(Some([]), Some([]));
      logger := null;
      isLogging, timerActive := false, false;
      startLogEnabled, stopLogEnabled := true, false;
      destination, logFormat, zoomMode := "", "Select format", "X Axis";
      xRange, yRange := Range(0.0, 1.0), Range(0.0, 1.0);
      plotRunning := false;
    }

    /** `start_logging()`. Without a destination, or with the placeholder
        format, nothing changes. Otherwise the header file is written as
        HeaderWritten says, a logger for the current curve, signal and
        folder is created, and logging starts. */
    method StartLogging(fs: FileStore)
      requires LogControlsAgree()
      modifies this`logger, this`isLogging, this`timerActive, this`startLogEnabled, this`stopLogEnabled, fs
      ensures LogControlsAgree()
      ensures destination == "" || logFormat == "Select format" ==>
        fs.files == old(fs.files) && isLogging == old(isLogging) && logger == old(logger)
        && startLogEnabled == old(startLogEnabled) && stopLogEnabled == old(stopLogEnabled)
      ensures destination != "" && logFormat != "Select format" ==>
        fs.files == HeaderWritten(old(fs.files), JoinPath(destination, HeaderName(signalName, graphId)), logFormat)
        && isLogging && logger != null && fresh(logger)
        && logger.curve == curve && logger.signalName == signalName && logger.directory == destination
    {
      var folder := destination;
      if folder == "" {
        return;
      }
      var logType := logFormat;
      if logType == "Select format" {
        return;
      }
      var path := JoinPath(folder, HeaderName(signalName, graphId));
      WriteHeader(fs, path, logType);
      BeginLogging(folder);
    }

    /** The header part of `start_logging`: the file at `path` is
        overwritten for "CSV" and "Binary" and left alone otherwise. */
    static method WriteHeader(fs: FileStore, path: string, format: string)
      modifies fs
      ensures fs.files == HeaderWritten(old(fs.files), path, format)
    {
      if format == "CSV" {
        fs.files := fs.files[path := [Header]];
      } else if format == "Binary" {
        fs.files := fs.files[path := [PackedPair(0.0, 0.0)]];
      }
    }

    /** The end of `start_logging`: a new logger for the current curve,
        signal and `folder`, the flag set, the timer started and the two
        buttons swapped. */
    method BeginLogging(folder: string)
      modifies this`logger, this`isLogging, this`timerActive, this`startLogEnabled, this`stopLogEnabled
      ensures LogControlsAgree() && isLogging
      ensures logger != null && fresh(logger)
      ensures logger.curve == curve && logger.signalName == signalName && logger.directory == folder
    {
      logger := new DataLogger(curve, signalName, folder);
      isLogging := true;
      timerActive := true;
      startLogEnabled := false;
      stopLogEnabled := true;
    }

    /** `stop_logging()`: the flag is cleared, the timer stopped and the two
        buttons swapped back; the logger is kept. */
    method StopLogging()
      modifies this`isLogging, this`timerActive, this`startLogEnabled, this`stopLogEnabled
      ensures LogControlsAgree()
      ensures !isLogging && !timerActive && startLogEnabled && !stopLogEnabled
    {
      isLogging := false;
      timerActive := false;
      startLogEnabled := true;
      stopLogEnabled := false;
    }

    /** `log_periodically()`: only while logging with a logger, "CSV"
        appends the logger's curve data and "Binary" writes nothing; in
        every other case no file changes. */
    method LogPeriodically(fs: FileStore)
      modifies fs
      ensures isLogging && logger != null && logFormat == "CSV" ==> fs.files == logger.AfterCsv(old(fs.files))
      ensures !(isLogging && logger != null && logFormat == "CSV") ==> fs.files == old(fs.files)
    {
      if isLogging && logger != null {
        if logFormat == "CSV" {
          logger.LoggCsv(fs);
        } else if logFormat == "Binary" {
          logger.LoggBinary(fs);
        }
      }
    }

    /** `apply_zoom(zoom_in)`: the view ranges become those of
        ApplyZoomRanges for the selected axis. */
    method ApplyZoom(zoomIn: bool)
      modifies this`xRange, this`yRange
      ensures (xRange, yRange) == ApplyZoomRanges(zoomMode, zoomIn, old(xRange), old(yRange))
    {
      var ranges := ApplyZoomRanges(zoomMode, zoomIn, xRange, yRange);
      xRange, yRange := ranges.0, ranges.1;
    }

    /** `start_plot()`: starts the worker thread unless it is running. */
    method StartPlot()
      modifies this`plotRunning
      ensures plotRunning
    {
      if !plotRunning {
        plotRunning := true;
      }
    }

    /** `stop_plot()`: stops the worker and its thread. */
    method StopPlot()
      modifies this`plotRunning
      ensures !plotRunning
    {
      plotRunning := false;
    }

    /** `reset_plot()`: stops the plot and replaces the curve by a fresh,
        empty one; a logger keeps the curve it was created with. */
    method ResetPlot()
      modifies this`plotRunning, this`curve
      ensures !plotRunning && fresh(curve) && curve.xData == Some([]) && curve.yData == Some([])
    {
      StopPlot();
      curve := new Curve(Some([]), Some([]));
    }
  }
}
