/** The CSV append logger. The file system is a map from path to the records
    stored in the file; opening a file for appending creates it when it is
    missing, and writing a CSV row appends one record. */
module Logger {
  import opened Common

  /** One CSV field: a number, or a text label (the header row). */
  datatype Cell = Number(x: real) | Label(text: string)

  /** One record of a file: a CSV row, or the 16-byte binary record
      `struct.pack('2d', a, b)` of two doubles. */
  datatype Record = Row(cells: seq<Cell>) | PackedPair(first: real, second: real)

  /** The file system: the records of every file, by path. */
  class FileStore {
    var files: map<string, seq<Record>>

    constructor (files: map<string, seq<Record>>)
      ensures this.files == files
    {
      this.files := files;
    }
  }

  /** What a file holds when opened for appending: its records, or nothing
      when it does not exist yet. */
  function Existing(files: map<string, seq<Record>>, path: string): seq<Record>
  {
    if path in files then files[path] else []
  }

  /** `os.path.join(directory, name)` on POSIX: an absolute name replaces the
      directory; otherwise one '/' separates them, unless the directory is
      empty or already ends with '/'. */
  function JoinPath(directory: string, name: string): (p: string)
    ensures directory == "" ==> p == name
    ensures |p| >= |name|
  {
    if |name| > 0 && name[0] == '/' then name
    else if directory == "" || directory[|directory| - 1] == '/' then directory + name
    else directory + "/" + name
  }

  /** An absolute name is the whole path; a relative one is put under the
      directory, which the path starts with. */
  lemma JoinPathPlacesName(directory: string, name: string)
    ensures |name| > 0 && name[0] == '/' ==> JoinPath(directory, name) == name
    ensures !(|name| > 0 && name[0] == '/') ==>
      var p := JoinPath(directory, name); |p| >= |directory| + |name| && p[..|directory|] == directory
  {
  }

  /** The joined path always ends with the file name itself. */
  lemma JoinPathEndsWithName(directory: string, name: string)
    ensures var p := JoinPath(directory, name); |p| >= |name| && p[|p| - |name|..] == name
  {
  }

  /** Two names that agree on being absolute and differ in length never
      join onto the same directory to the same path. */
  lemma JoinPathInjective(directory: string, a: string, b: string)
    requires (|a| > 0 && a[0] == '/') == (|b| > 0 && b[0] == '/')
    requires |a| != |b|
    ensures JoinPath(directory, a) != JoinPath(directory, b)
  {
  }

  /** The CSV rows of `zip(x, y)`: as many as the shorter array, row i being
      [x[i], y[i]]. */
  function ZipRows(x: seq<real>, y: seq<real>): (rows: seq<Record>)
    ensures |rows| == MinNat(|x|, |y|)
    ensures forall i :: 0 <= i < |rows| ==> rows[i] == Row([Number(x[i]), Number(y[i])])
  {
    seq(MinNat(|x|, |y|), i requires 0 <= i < MinNat(|x|, |y|) => Row([Number(x[i]), Number(y[i])]))
  }

  /** A data row is never a header: every cell of every zipped row is a
      number, and each row has exactly two. */
  lemma {:induction false} ZipRowsAreNumeric(x: seq<real>, y: seq<real>)
    ensures forall r :: r in ZipRows(x, y) ==> r.Row? && |r.cells| == 2 && r.cells[0].Number? && r.cells[1].Number?
  {
    var rows := ZipRows(x, y);
    forall r | r in rows
      ensures r.Row? && |r.cells| == 2 && r.cells[0].Number? && r.cells[1].Number?
    {
      var i :| 0 <= i < |rows| && rows[i] == r;
    }
  }

  /** Zipping more data extends the rows already zipped: logging a longer
      pair of arrays writes the shorter pair's rows first. */
  lemma {:induction false} ZipRowsPrefix(x: seq<real>, y: seq<real>, x2: seq<real>, y2: seq<real>)
    ensures ZipRows(x, y) <= ZipRows(x + x2, y + y2)
  {
    var short := ZipRows(x, y);
    var long := ZipRows(x + x2, y + y2);
    assert |short| <= |long|;
    forall i | 0 <= i < |short|
      ensures short[i] == long[i]
    {
      assert (x + x2)[i] == x[i] && (y + y2)[i] == y[i];
    }
  }

  /** The plot curve whose data is logged: `getData()` gives the two
      arrays, either of which may be missing (None). */
  class Curve {
    var xData: Option<seq<real>>
    var yData: Option<seq<real>>

    constructor (xData: Option<seq<real>>, yData: Option<seq<real>>)
      ensures this.xData == xData && this.yData == yData
    {
      this.xData := xData;
      this.yData := yData;
    }
  }

  class DataLogger {
    /** `self.curve`: the curve to log, or None. */
    const curve: Curve?
    const signalName: string
    const directory: string

    constructor (curve: Curve?, signalName: string, directory: string)
      ensures this.curve == curve && this.signalName == signalName && this.directory == directory
    {
      this.curve := curve;
      this.signalName := signalName;
      this.directory := directory;
    }

    /** The file the logger appends to: `{signal_name}.csv` in the directory. */
    function DataPath(): (p: string)
      ensures |p| >= |signalName| + 4 && p[|p| - 4..] == ".csv"
    {
      JoinPath(directory, signalName + ".csv")
    }

    /** The files after `logg_csv()`: unchanged without a curve or when
        either data array is missing; otherwise the data file (created empty
        if missing) gets the rows of `zip(x, y)` after what it already held. */
    function AfterCsv(files: map<string, seq<Record>>): map<string, seq<Record>>
      reads curve
    {
      if curve == null || curve.xData.None? || curve.yData.None? then files
      else files[DataPath() := Existing(files, DataPath()) + ZipRows(curve.xData.value, curve.yData.value)]
    }

    /** `logg_csv()`: the data file is opened for appending and the rows of
        `zip(x, y)` are written one by one; the files become AfterCsv of
        what they were. */
    method LoggCsv(fs: FileStore)
      modifies fs
      ensures fs.files == AfterCsv(old(fs.files))
    {
      if curve == null {
        return;
      }
      var xData, yData := curve.xData, curve.yData;
      if xData.None? || yData.None? {
        return;
      }
      var x, y := xData.value, yData.value;
      var path := DataPath();
      var before := Existing(fs.files, path);
      ghost var rows := ZipRows(x, y);
      fs.files := fs.files[path := before];
      assert before + rows[..0] == before;
      var i := 0;
      while i < |x| && i < |y|
        invariant i <= |rows|
        invariant fs.files == old(fs.files)[path := before + rows[..i]]
      {
        ghost var written := before + rows[..i];
        assert rows[i] == Row([Number(x[i]), Number(y[i])]);
        assert rows[..i + 1] == rows[..i] + [rows[i]];
        assert written + [rows[i]] == before + (rows[..i] + [rows[i]]);
        fs.files := fs.files[path := fs.files[path] + [Row([Number(x[i]), Number(y[i])])]];
        i := i + 1;
      }
      assert rows[..i] == rows;
    }

    /** `logg_binary()`: a placeholder that writes nothing. */
    method LoggBinary(fs: FileStore)
      ensures fs.files == old(fs.files)
    {
    }
  }

  /** Appending never loses data: every file keeps what it held as a
      prefix, only the data file can change, and it grows by exactly the
      zipped rows when the curve has both arrays. */
  lemma AfterCsvAppends(l: DataLogger, files: map<string, seq<Record>>, path: string)
    ensures Existing(files, path) <= Existing(l.AfterCsv(files), path)
    ensures path != l.DataPath() ==> Existing(l.AfterCsv(files), path) == Existing(files, path)
    ensures l.curve != null && l.curve.xData.Some? && l.curve.yData.Some? && path == l.DataPath() ==>
      |Existing(l.AfterCsv(files), path)| == |Existing(files, path)| + MinNat(|l.curve.xData.value|, |l.curve.yData.value|)
    ensures path in files ==> path in l.AfterCsv(files)
  {
  }

  /** Without both arrays, logging writes nothing at all. */
  lemma AfterCsvMissingData(l: DataLogger, files: map<string, seq<Record>>)
    requires l.curve == null || l.curve.xData.None? || l.curve.yData.None?
    ensures l.AfterCsv(files) == files
  {
  }
}
