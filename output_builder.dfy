/**
 * The deterministic parts of OutputBuilder: the guards of `package_folder`,
 * the figure-size rule of the two summary plots, the bin-stats reader and the
 * HTML summary table of `build_summary_table`, and the per-bin page of
 * `_write_dist_html_page`.
 *
 * The file system is a snapshot: `existing` and `isFile` are the paths that
 * exist, and the stats file's lines are given. The storage upload and
 * `ast.literal_eval` are oracles.
 */
module OutputBuilder {
  import opened Wrappers
  import opened PyValues
  import opened KaijuErrors

  // ---------------------------------------------------------------------
  // package_folder

  /** The `{'shock_id', 'name', 'label'}` record `package_folder` returns. */
  datatype Package = Package(shockId: string, name: string, packageLabel: string)

  /**
   * `package_folder`: the scratch directory itself is refused before anything
   * else, then a folder that does not exist; otherwise the folder is uploaded
   * (`upload` gives the storage id) and the caller's name and description are echoed as the package's name and label.
   */
  function PackageFolder(scratch: string, folder: string, zipName: string, description: string,
                         existing: set<string>, upload: string -> string): (r: Result<Package, Error>)
    ensures folder == scratch ==> r == Failure(ScratchFolder)
    ensures folder != scratch && folder !in existing ==> r == Failure(MissingFolder(folder))
    ensures r.Success? <==> folder != scratch && folder in existing
    ensures r.Success? ==> r.value == Package(upload(folder), zipName, description)
  {
    if folder == scratch then Failure(ScratchFolder)
    else if folder !in existing then Failure(MissingFolder(folder))
    else Success(Package(upload(folder), zipName, description))
  }

  /** A missing folder's error message ends with the folder's path. */
  lemma MissingFolderMessage(scratch: string, folder: string, zipName: string, description: string,
                             existing: set<string>, upload: string -> string)
    requires folder != scratch && folder !in existing
    ensures var m := SourceMessage(PackageFolder(scratch, folder, zipName, description, existing, upload).error);
            m.Some? && |folder| <= |m.value| && m.value[|m.value| - |folder|..] == folder
  {
    var m := SourceMessage(MissingFolder(folder)).value;
    assert m == "cannot package folder that doesn't exist: " + folder;
  }

  // ---------------------------------------------------------------------
  // The figure size of _create_bar_plots and _create_area_plots

  /** The sample labels both plots are drawn for. */
  const SampleLabels: seq<string> := ["sample1", "sample2", "sample3", "sample4", "sample5"]

  /** `(img_in_width, img_in_height)` for `n` samples. */
  function FigureSize(n: nat): (nat, nat)
  {
    var width := if n < 10 then 2 * n else if n < 20 then n else 20;
    (width, 5)
  }

  /**
   * The width is at most 20 inches and reaches 20 exactly from 20 samples on;
   * below that it is between one and two inches per sample; the height is 5.
   */
  lemma FigureSizeBounds(n: nat)
    ensures FigureSize(n).1 == 5
    ensures FigureSize(n).0 <= 20 && FigureSize(n).0 <= 2 * n
    ensures FigureSize(n).0 == 20 <==> n >= 20
    ensures n < 20 ==> n <= FigureSize(n).0
  {
  }

  /** Both plots are 10 by 5 inches for their five samples. */
  lemma PlotFigureSize()
    ensures FigureSize(|SampleLabels|) == (10, 5)
  {
  }

  /** The width is not monotone: one more sample gives a narrower figure exactly when going from nine to ten. */
  lemma FigureWidthDrops(n: nat)
    requires n >= 1
    ensures FigureSize(n).0 < FigureSize(n - 1).0 <==> n == 10
  {
  }

  // ---------------------------------------------------------------------
  // Reading bin_stats_ext.tsv

  /** One row of the stats file: the bin id and the dictionary of its statistics. */
  datatype BinRecord = BinRecord(bid: string, data: Dict)

  /** `os.path.join(output_dir, 'storage', 'bin_stats_ext.tsv')`. */
  function StatsPath(outputDir: string): string
  {
    PathJoin(PathJoin(outputDir, "storage"), "bin_stats_ext.tsv")
  }

  /**
   * A line that is neither empty nor a `#` comment. A line here is what
   * `for line in lf` yields, with its `'\n'`; such a line is never empty, so
   * the `line != ""` test models `if not line`, which never skips anything.
   */
  predicate IsDataLine(line: string)
  {
    line != "" && line[0] != '#'
  }

  /**
   * One data line: column 0 is the bin id and column 1 is read by `parse`
   * (`ast.literal_eval`). A line without a tab has no column 1 (IndexError).
   */
  function ParseLine(line: string, parse: string -> Option<Dict>): (r: Result<BinRecord, Error>)
    ensures r == Failure(MalformedStatsLine(line)) <==> '\t' !in line
    ensures r.Success? ==> && '\t' !in r.value.bid && |r.value.bid| < |line|
                           && line[..|r.value.bid| + 1] == r.value.bid + "\t"
  {
    var col := Split(line, '\t');
    SplitFirst(line, '\t');
    if |col| < 2 then Failure(MalformedStatsLine(line))
    else
      match parse(col[1])
      case None => Failure(UnparsableStats(col[1]))
      case Some(d) => Success(BinRecord(col[0], d))
  }

  /** The data lines of `lines`, in file order. */
  function DataLines(lines: seq<string>): seq<string>
    decreases |lines|
  {
    if lines == [] then []
    else DataLines(lines[..|lines| - 1]) + (if IsDataLine(lines[|lines| - 1]) then [lines[|lines| - 1]] else [])
  }

  /** The records of the stats file, in file order; the first line that cannot be read is the error. */
  function ParseStats(lines: seq<string>, parse: string -> Option<Dict>): Result<seq<BinRecord>, Error>
    decreases |lines|
  {
    if lines == [] then Success([])
    else
      match ParseStats(lines[..|lines| - 1], parse)
      case Failure(e) => Failure(e)
      case Success(bins) =>
        var line := lines[|lines| - 1];
        if !IsDataLine(line) then Success(bins)
        else
          match ParseLine(line, parse)
          case Failure(e) => Failure(e)
          case Success(b) => Success(bins + [b])
  }

  /**
   * The reading loop of `build_summary_table`. Each element of `lines` is a
   * line as file iteration yields it, with its `'\n'`: a blank line is `"\n"`.
   */
  method ReadBinStats(lines: seq<string>, parse: string -> Option<Dict>) returns (r: Result<seq<BinRecord>, Error>)
    ensures r == ParseStats(lines, parse)
  {
    var bins: seq<BinRecord> := [];
    var i := 0;
    while i < |lines|
      invariant 0 <= i <= |lines|
      invariant ParseStats(lines[..i], parse) == Success(bins)
    {
      var line := lines[i];
      assert lines[..i + 1][..i] == lines[..i];
      if line == "" || line[0] == '#' {
        i := i + 1;
        continue;
      }
      var col := Split(line, '\t');
      if |col| < 2 {
        r := Failure(MalformedStatsLine(line));
        ParseStatsStopsAfterFailure(lines, parse, i + 1);
        return;
      }
      var data := parse(col[1]);
      if data.None? {
        r := Failure(UnparsableStats(col[1]));
        ParseStatsStopsAfterFailure(lines, parse, i + 1);
        return;
      }
      bins := bins + [BinRecord(col[0], data.value)];
      i := i + 1;
    }
    assert lines[..i] == lines;
    r := Success(bins);
  }

  /** Once a prefix of the file cannot be read, the rest of it is never looked at. */
  lemma {:induction false} ParseStatsStopsAfterFailure(lines: seq<string>, parse: string -> Option<Dict>, k: int)
    requires 0 <= k <= |lines| && ParseStats(lines[..k], parse).Failure?
    ensures ParseStats(lines, parse) == ParseStats(lines[..k], parse)
    decreases |lines| - k
  {
    if k < |lines| {
      var n := |lines| - 1;
      assert lines[..n][..k] == lines[..k];
      ParseStatsStopsAfterFailure(lines[..n], parse, k);
    } else {
      assert lines[..k] == lines;
    }
  }

  /** Exactly the data lines are kept: the empty lines and the `#` comments are dropped. */
  lemma {:induction false} DataLinesMembers(lines: seq<string>)
    ensures forall x :: x in DataLines(lines) <==> x in lines && IsDataLine(x)
    ensures |DataLines(lines)| <= |lines|
    decreases |lines|
  {
    if lines != [] {
      var n := |lines| - 1;
      DataLinesMembers(lines[..n]);
      assert lines == lines[..n] + [lines[n]];
    }
  }

  /**
   * A blank line, which file iteration yields as `"\n"`, has no second
   * column: once reached it raises, whatever follows.
   */
  lemma BlankLineRaises(before: seq<string>, after: seq<string>, parse: string -> Option<Dict>)
    requires ParseStats(before, parse).Success?
    ensures ParseStats(before + ["\n"] + after, parse) == Failure(MalformedStatsLine("\n"))
  {
    var lines := before + ["\n"] + after;
    var k := |before| + 1;
    assert lines[..k] == before + ["\n"];
    assert lines[..k][..k - 1] == before;
    assert IsDataLine("\n");
    assert '\t' !in "\n";
    ParseStatsStopsAfterFailure(lines, parse, k);
  }

  /**
   * A stats file is read iff each of its data lines is; then there is one
   * record per data line, in file order, and each record is what its line gives.
   */
  lemma {:induction false} ParseStatsRows(lines: seq<string>, parse: string -> Option<Dict>)
    ensures ParseStats(lines, parse).Success?
            <==> forall i :: 0 <= i < |DataLines(lines)| ==> ParseLine(DataLines(lines)[i], parse).Success?
    ensures ParseStats(lines, parse).Success? ==>
              var bins := ParseStats(lines, parse).value;
              && |bins| == |DataLines(lines)|
              && forall i :: 0 <= i < |bins| ==> ParseLine(DataLines(lines)[i], parse) == Success(bins[i])
    decreases |lines|
  {
    if lines != [] {
      var n := |lines| - 1;
      var d := DataLines(lines[..n]);
      ParseStatsRows(lines[..n], parse);
      if IsDataLine(lines[n]) {
        assert DataLines(lines) == d + [lines[n]];
        assert forall i :: 0 <= i < |d| ==> DataLines(lines)[i] == d[i];
        assert DataLines(lines)[|d|] == lines[n];
        if ParseStats(lines[..n], parse).Failure? {
          var i :| 0 <= i < |d| && !ParseLine(d[i], parse).Success?;
          assert !ParseLine(DataLines(lines)[i], parse).Success?;
        }
      } else {
        assert DataLines(lines) == d;
      }
    }
  }

  // ---------------------------------------------------------------------
  // The summary table

  /** A column of the summary table: the key in a record's data, its header, and whether it is rounded. */
  datatype Field = Field(id: string, display: string, rounded: bool)

  /** The twelve columns after "Bin Name", in table order. */
  const Fields: seq<Field> := [
    Field("marker lineage", "Marker Lineage", false),
    Field("# genomes", "# Genomes", false),
    Field("# markers", "# Markers", false),
    Field("# marker sets", "# Marker Sets", false),
    Field("0", "0", false),
    Field("1", "1", false),
    Field("2", "2", false),
    Field("3", "3", false),
    Field("4", "4", false),
    Field("5+", "5+", false),
    Field("Completeness", "Completeness", true),
    Field("Contamination", "Contamination", true)
  ]

  /**
   * What the table depends on besides the records: the HTML directory, the
   * plot extension, the files that exist there, and `str(round(v, 3))`.
   */
  datatype TableEnv = TableEnv(htmlDir: string, plotExt: string, isFile: set<string>, round3: Value -> string)

  function HeaderCell(f: Field): string
  {
    "    <th>" + f.display + "</th>\n"
  }

  /** The header cells of `fs`, in order. */
  function HeaderCells(fs: seq<Field>): seq<string>
    decreases |fs|
  {
    if fs == [] then [] else HeaderCells(fs[..|fs| - 1]) + [HeaderCell(fs[|fs| - 1])]
  }

  /** The writes that open the table and make its header row. */
  function HeaderWrites(): seq<string>
  {
    ["<table>\n", "  <tr>\n", "    <th><b>Bin Name</b></th>\n"] + HeaderCells(Fields) + ["  </tr>\n"]
  }

  /** The bin has a distribution plot in the HTML directory. */
  predicate Linked(env: TableEnv, bid: string)
  {
    PathJoin(env.htmlDir, bid + env.plotExt) in env.isFile
  }

  /** The start of a bin cell that links to the bin's page. */
  function LinkPrefix(bid: string): string
  {
    "    <td><a href=\"" + bid + ".html\">"
  }

  /** The first cell of a bin's row: a link to its page when it has a plot. */
  function BinCell(env: TableEnv, bid: string): string
  {
    if Linked(env, bid) then LinkPrefix(bid) + bid + "</td>\n"
    else "    <td>" + bid + "</td>\n"
  }

  /** The cell of field `f`: `str` of the value, `str(round(v, 3))` for a rounded field, empty when absent. */
  function FieldCell(env: TableEnv, b: BinRecord, f: Field): string
  {
    if f.id in b.data then
      "    <td>" + (if f.rounded then env.round3(b.data[f.id]) else ToStr(b.data[f.id])) + "</td>\n"
    else "    <td></td>\n"
  }

  function FieldCells(env: TableEnv, b: BinRecord, fs: seq<Field>): seq<string>
    decreases |fs|
  {
    if fs == [] then [] else FieldCells(env, b, fs[..|fs| - 1]) + [FieldCell(env, b, fs[|fs| - 1])]
  }

  /** The writes of one bin's row. */
  function RowWrites(env: TableEnv, b: BinRecord): seq<string>
  {
    ["  <tr>\n", BinCell(env, b.bid)] + FieldCells(env, b, Fields) + ["  </tr>\n"]
  }

  /** The rows of `bins`, in order. */
  function RowsWrites(env: TableEnv, bins: seq<BinRecord>): seq<string>
    decreases |bins|
  {
    if bins == [] then [] else RowsWrites(env, bins[..|bins| - 1]) + RowWrites(env, bins[|bins| - 1])
  }

  /** Everything `build_summary_table` writes to the report for `bins`. */
  function TableWrites(env: TableEnv, bins: seq<BinRecord>): seq<string>
  {
    HeaderWrites() + RowsWrites(env, bins) + ["</table>\n"]
  }

  // The per-bin page

  /** `os.path.join(html_dir, bin_id + '.html')`. */
  function PagePath(htmlDir: string, bid: string): string
  {
    PathJoin(htmlDir, bid + ".html")
  }

  /** The link back to the summary page. */
  function BackLink(): string
  {
    "<a href=\"report.html\">"
  }

  /** The start of the image tag showing the bin's plot. */
  function PlotImage(bid: string, plotExt: string): string
  {
    "<img src=\"" + bid + plotExt + "\""
  }

  /** The writes of `_write_dist_html_page`, in order. */
  function DistPageWrites(bid: string, plotExt: string): seq<string>
  {
    [ "<html>\n",
      "<head>\n",
      "<title>CheckM Dist Plots for Bin" + bid + "</title>",
      "<style style=\"text/css\">\n a { color: #337ab7; } \n a:hover { color: #23527c; }\n</style>\n",
      "<body>\n",
      "<br>" + BackLink() + "Back to summary</a><br>\n",
      "<center><h2>Bin: " + bid + "</h2></center>\n",
      PlotImage(bid, plotExt) + " width=\"90%\" />\n",
      "<br><br><br>\n",
      "</body>\n</html>\n" ]
  }

  /** The text of a file made of successive writes. */
  function Concat(writes: seq<string>): string
    decreases |writes|
  {
    if writes == [] then "" else Concat(writes[..|writes| - 1]) + writes[|writes| - 1]
  }

  /** The paths of the pages written for the linked bins of `bins`. */
  function PagePaths(env: TableEnv, bins: seq<BinRecord>): set<string>
    decreases |bins|
  {
    if bins == [] then {}
    else
      var b := bins[|bins| - 1];
      PagePaths(env, bins[..|bins| - 1]) + (if Linked(env, b.bid) then {PagePath(env.htmlDir, b.bid)} else {})
  }

  /** `_write_dist_html_page`'s writes for each bin of the table. */
  function PageOf(env: TableEnv): string -> seq<string>
  {
    bid => DistPageWrites(bid, env.plotExt)
  }

  /**
   * The files after `page(bid)` is written, in order, for the linked bins of
   * `bins` over `files`; the table writes `PageOf(env)`.
   */
  function DistPages(env: TableEnv, bins: seq<BinRecord>, files: map<string, seq<string>>,
                     page: string -> seq<string>): map<string, seq<string>>
    decreases |bins|
  {
    if bins == [] then files
    else
      var before := DistPages(env, bins[..|bins| - 1], files, page);
      var b := bins[|bins| - 1];
      if Linked(env, b.bid) then before[PagePath(env.htmlDir, b.bid) := page(b.bid)]
      else before
  }

  // ---------------------------------------------------------------------
  // The writers

  /** An open text file, as the sequence of strings written to it. */
  class HtmlStream {
    var writes: seq<string>

    constructor()
      ensures writes == []
    {
      writes := [];
    }

    method Write(text: string)
      modifies this
      ensures writes == old(writes) + [text]
    {
      writes := writes + [text];
    }
  }

  /** The files written under the HTML directory, each as the sequence of its writes. */
  class FileStore {
    var files: map<string, seq<string>>

    constructor(init: map<string, seq<string>>)
      ensures files == init
    {
      files := init;
    }

    method Store(path: string, writes: seq<string>)
      modifies this
      ensures files == old(files)[path := writes]
    {
      files := files[path := writes];
    }
  }

  /** Writes `lines` one after the other. */
  method WriteLines(html: HtmlStream, lines: seq<string>)
    modifies html
    ensures html.writes == old(html.writes) + lines
  {
    ghost var w0 := html.writes;
    for k := 0 to |lines|
      invariant html.writes == w0 + lines[..k]
    {
      assert lines[..k + 1] == lines[..k] + [lines[k]];
      html.Write(lines[k]);
    }
    assert lines[..|lines|] == lines;
  }

  /** `_write_dist_html_page`: the page's ten writes, in order, to a new file. */
  method WriteDistPage(store: FileStore, htmlDir: string, bid: string, plotExt: string)
    modifies store
    ensures store.files == old(store.files)[PagePath(htmlDir, bid) := DistPageWrites(bid, plotExt)]
  {
    var html := new HtmlStream();
    var lines := DistPageWrites(bid, plotExt);
    WriteLines(html, lines);
    assert html.writes == lines by {
      assert [] + lines == lines;
    }
    store.Store(PathJoin(htmlDir, bid + ".html"), html.writes);
  }

  /** The header cells of `fs`, one write each. */
  method WriteHeaderCells(html: HtmlStream, fs: seq<Field>)
    modifies html
    ensures html.writes == old(html.writes) + HeaderCells(fs)
  {
    ghost var w0 := html.writes;
    for k := 0 to |fs|
      invariant html.writes == w0 + HeaderCells(fs[..k])
    {
      assert fs[..k + 1][..k] == fs[..k];
      html.Write("    <th>" + fs[k].display + "</th>\n");
    }
    assert fs[..|fs|] == fs;
  }

  /** The header part of `build_summary_table`. */
  method WriteHeader(html: HtmlStream)
    modifies html
    ensures html.writes == old(html.writes) + HeaderWrites()
  {
    ghost var w0 := html.writes;
    html.Write("<table>\n");
    html.Write("  <tr>\n");
    html.Write("    <th><b>Bin Name</b></th>\n");
    ghost var w1 := html.writes;
    WriteHeaderCells(html, Fields);
    ghost var w2 := html.writes;
    html.Write("  </tr>\n");
    HeaderTrace(w0, w1, w2, html.writes);
  }

  lemma HeaderTrace(w0: seq<string>, w1: seq<string>, w2: seq<string>, w3: seq<string>)
    requires w1 == w0 + ["<table>\n"] + ["  <tr>\n"] + ["    <th><b>Bin Name</b></th>\n"]
    requires w2 == w1 + HeaderCells(Fields) && w3 == w2 + ["  </tr>\n"]
    ensures w3 == w0 + HeaderWrites()
  {
    var h := HeaderCells(Fields);
    assert HeaderWrites() == ["<table>\n", "  <tr>\n", "    <th><b>Bin Name</b></th>\n"] + h + ["  </tr>\n"];
  }

  /** The field cells of a row, one write each. */
  method WriteFieldCells(html: HtmlStream, env: TableEnv, b: BinRecord, fs: seq<Field>)
    modifies html
    ensures html.writes == old(html.writes) + FieldCells(env, b, fs)
  {
    ghost var w0 := html.writes;
    for k := 0 to |fs|
      invariant html.writes == w0 + FieldCells(env, b, fs[..k])
    {
      assert fs[..k + 1][..k] == fs[..k];
      var f := fs[k];
      if f.id in b.data {
        var value := ToStr(b.data[f.id]);
        if f.rounded {
          value := env.round3(b.data[f.id]);
        }
        html.Write("    <td>" + value + "</td>\n");
      } else {
        html.Write("    <td></td>\n");
      }
    }
    assert fs[..|fs|] == fs;
  }

  /** One row of `build_summary_table`, with the bin's page written first when it has a plot. */
  method WriteRow(html: HtmlStream, store: FileStore, env: TableEnv, b: BinRecord)
    modifies html, store
    ensures html.writes == old(html.writes) + RowWrites(env, b)
    ensures store.files == if Linked(env, b.bid)
                           then old(store.files)[PagePath(env.htmlDir, b.bid) := DistPageWrites(b.bid, env.plotExt)]
                           else old(store.files)
  {
    ghost var w0 := html.writes;
    html.Write("  <tr>\n");
    var plot := PathJoin(env.htmlDir, b.bid + env.plotExt);
    if plot in env.isFile {
      WriteDistPage(store, env.htmlDir, b.bid, env.plotExt);
      html.Write("    <td><a href=\"" + b.bid + ".html\">" + b.bid + "</td>\n");
    } else {
      html.Write("    <td>" + b.bid + "</td>\n");
    }
    ghost var w1 := html.writes;
    WriteFieldCells(html, env, b, Fields);
    ghost var w2 := html.writes;
    html.Write("  </tr>\n");
    RowTrace(env, b, w0, w1, w2, html.writes);
  }

  lemma RowTrace(env: TableEnv, b: BinRecord, w0: seq<string>, w1: seq<string>, w2: seq<string>, w3: seq<string>)
    requires w1 == w0 + ["  <tr>\n"] + [BinCell(env, b.bid)]
    requires w2 == w1 + FieldCells(env, b, Fields) && w3 == w2 + ["  </tr>\n"]
    ensures w3 == w0 + RowWrites(env, b)
  {
  }

  /**
   * `build_summary_table`. Without a stats file it writes nothing; a stats
   * file that cannot be read raises before anything is written. `statsLines`
   * are the stats file's lines as file iteration yields them, each with its `'\n'`.
   */
  method BuildSummaryTable(html: HtmlStream, store: FileStore, outputDir: string, env: TableEnv,
                           statsLines: seq<string>, parse: string -> Option<Dict>)
    returns (err: Option<Error>)
    modifies html, store
    ensures StatsPath(outputDir) !in env.isFile ==> err == None && unchanged(html, store)
    ensures StatsPath(outputDir) in env.isFile && ParseStats(statsLines, parse).Failure? ==>
              err == Some(ParseStats(statsLines, parse).error) && unchanged(html, store)
    ensures StatsPath(outputDir) in env.isFile && ParseStats(statsLines, parse).Success? ==>
              && err == None
              && html.writes == old(html.writes) + TableWrites(env, ParseStats(statsLines, parse).value)
              && store.files == DistPages(env, ParseStats(statsLines, parse).value, old(store.files), PageOf(env))
  {
    var statsFile := PathJoin(PathJoin(outputDir, "storage"), "bin_stats_ext.tsv");
    if statsFile !in env.isFile {
      return None;
    }
    var read := ReadBinStats(statsLines, parse);
    if read.Failure? {
      return Some(read.error);
    }
    var bins := read.value;
    ghost var w0 := html.writes;
    WriteHeader(html);
    WriteRows(html, store, env, bins);
    ghost var w2 := html.writes;
    html.Write("</table>\n");
    TableTrace(env, bins, w0, w2, html.writes);
    err := None;
  }

  /** The rows of `build_summary_table`, in record order. */
  method WriteRows(html: HtmlStream, store: FileStore, env: TableEnv, bins: seq<BinRecord>)
    modifies html, store
    ensures html.writes == old(html.writes) + RowsWrites(env, bins)
    ensures store.files == DistPages(env, bins, old(store.files), PageOf(env))
  {
    ghost var w0 := html.writes;
    ghost var files0 := store.files;
    for j := 0 to |bins|
      invariant html.writes == w0 + RowsWrites(env, bins[..j])
      invariant store.files == DistPages(env, bins[..j], files0, PageOf(env))
    {
      assert bins[..j + 1][..j] == bins[..j];
      WriteRow(html, store, env, bins[j]);
    }
    assert bins[..|bins|] == bins;
  }

  lemma TableTrace(env: TableEnv, bins: seq<BinRecord>, w0: seq<string>, w2: seq<string>, w3: seq<string>)
    requires w2 == w0 + HeaderWrites() + RowsWrites(env, bins) && w3 == w2 + ["</table>\n"]
    ensures w3 == w0 + TableWrites(env, bins)
  {
  }

  // ---------------------------------------------------------------------
  // Properties of the table

  lemma {:induction false} HeaderCellsAt(fs: seq<Field>)
    ensures |HeaderCells(fs)| == |fs|
    ensures forall i :: 0 <= i < |fs| ==> HeaderCells(fs)[i] == HeaderCell(fs[i])
    decreases |fs|
  {
    if fs != [] {
      HeaderCellsAt(fs[..|fs| - 1]);
    }
  }

  /** The header row is "Bin Name" followed by the twelve display names in order, and nothing else. */
  lemma HeaderShape()
    ensures |HeaderWrites()| == 16
    ensures HeaderWrites()[..2] == ["<table>\n", "  <tr>\n"]
    ensures HeaderWrites()[2] == "    <th><b>Bin Name</b></th>\n"
    ensures forall i :: 0 <= i < 12 ==> HeaderWrites()[3 + i] == "    <th>" + Fields[i].display + "</th>\n"
    ensures HeaderWrites()[15] == "  </tr>\n"
  {
    HeaderCellsAt(Fields);
  }

  lemma {:induction false} FieldCellsAt(env: TableEnv, b: BinRecord, fs: seq<Field>)
    ensures |FieldCells(env, b, fs)| == |fs|
    ensures forall i :: 0 <= i < |fs| ==> FieldCells(env, b, fs)[i] == FieldCell(env, b, fs[i])
    decreases |fs|
  {
    if fs != [] {
      FieldCellsAt(env, b, fs[..|fs| - 1]);
    }
  }

  /**
   * A row opens, has the bin cell and then one cell per field in order (1 + 12
   * cells), and closes; a field the record lacks gives an empty cell, and a
   * present field shows `str` of its value, or its rounded form.
   */
  lemma RowShape(env: TableEnv, b: BinRecord)
    ensures var row := RowWrites(env, b);
            && |row| == 15
            && row[0] == "  <tr>\n" && row[14] == "  </tr>\n"
            && row[1] == BinCell(env, b.bid)
            && forall i :: 0 <= i < 12 ==> row[2 + i] == FieldCell(env, b, Fields[i])
    ensures forall i :: 0 <= i < 12 && Fields[i].id !in b.data ==> FieldCell(env, b, Fields[i]) == "    <td></td>\n"
    ensures forall i :: 0 <= i < 12 && Fields[i].id in b.data && !Fields[i].rounded ==>
              FieldCell(env, b, Fields[i]) == "    <td>" + ToStr(b.data[Fields[i].id]) + "</td>\n"
  {
    FieldCellsAt(env, b, Fields);
  }

  /** Only the two percentages are rounded. */
  lemma RoundedFields()
    ensures forall i :: 0 <= i < 12 ==> (Fields[i].rounded <==> i == 10 || i == 11)
    ensures Fields[10].id == "Completeness" && Fields[11].id == "Contamination"
  {
  }

  /** The bin cell links to `<bid>.html` iff the bin's plot file exists. */
  lemma BinCellLinksIffPlot(env: TableEnv, bid: string)
    ensures LinkPrefix(bid) <= BinCell(env, bid) <==> Linked(env, bid)
  {
    if !Linked(env, bid) {
      assert |BinCell(env, bid)| < |LinkPrefix(bid)|;
    }
  }

  lemma {:induction false} RowsWritesAt(env: TableEnv, bins: seq<BinRecord>)
    ensures |RowsWrites(env, bins)| == 15 * |bins|
    ensures forall j :: 0 <= j < |bins| ==> RowsWrites(env, bins)[15 * j..15 * j + 15] == RowWrites(env, bins[j])
    decreases |bins|
  {
    if bins != [] {
      var n := |bins| - 1;
      RowsWritesAt(env, bins[..n]);
      RowShape(env, bins[n]);
      var a := RowsWrites(env, bins[..n]);
      var r := RowWrites(env, bins[n]);
      assert RowsWrites(env, bins) == a + r;
      forall j | 0 <= j < |bins| ensures (a + r)[15 * j..15 * j + 15] == RowWrites(env, bins[j]) {
        if j < n {
          assert (a + r)[15 * j..15 * j + 15] == a[15 * j..15 * j + 15];
        } else {
          assert (a + r)[15 * j..15 * j + 15] == r;
        }
      }
    }
  }

  /** The table is the header, one 15-write row per record in record order, and the closing tag. */
  lemma TableShape(env: TableEnv, bins: seq<BinRecord>)
    ensures var t := TableWrites(env, bins);
            && |t| == 17 + 15 * |bins|
            && t[..16] == HeaderWrites()
            && (forall j :: 0 <= j < |bins| ==> t[16 + 15 * j..31 + 15 * j] == RowWrites(env, bins[j]))
            && t[|t| - 1] == "</table>\n"
  {
    HeaderShape();
    RowsWritesAt(env, bins);
    var h := HeaderWrites();
    var rows := RowsWrites(env, bins);
    var t := TableWrites(env, bins);
    assert t == h + rows + ["</table>\n"];
    forall j | 0 <= j < |bins| ensures t[16 + 15 * j..31 + 15 * j] == RowWrites(env, bins[j]) {
      assert t[16 + 15 * j..31 + 15 * j] == rows[15 * j..15 * j + 15];
    }
  }

  /** A page path is written for exactly the linked bins. */
  lemma {:induction false} PagePathsMembers(env: TableEnv, bins: seq<BinRecord>)
    ensures forall k :: k in PagePaths(env, bins) <==>
              exists j :: 0 <= j < |bins| && Linked(env, bins[j].bid) && k == PagePath(env.htmlDir, bins[j].bid)
    decreases |bins|
  {
    if bins != [] {
      var n := |bins| - 1;
      PagePathsMembers(env, bins[..n]);
      assert forall j :: 0 <= j < n ==> bins[..n][j] == bins[j];
    }
  }

  /** The pages add exactly the linked bins' page paths to the files. */
  lemma {:induction false} DistPagesKeys(env: TableEnv, bins: seq<BinRecord>, files: map<string, seq<string>>,
                                         page: string -> seq<string>)
    ensures forall k :: k in DistPages(env, bins, files, page) <==> k in files || k in PagePaths(env, bins)
    decreases |bins|
  {
    if bins != [] {
      DistPagesKeys(env, bins[..|bins| - 1], files, page);
    }
  }

  /** A file that is no bin's page is left as it was. */
  lemma {:induction false} DistPagesKeepOthers(env: TableEnv, bins: seq<BinRecord>, files: map<string, seq<string>>,
                                               page: string -> seq<string>, k: string)
    requires k in files && k !in PagePaths(env, bins)
    ensures k in DistPages(env, bins, files, page) && DistPages(env, bins, files, page)[k] == files[k]
    decreases |bins|
  {
    if bins != [] {
      DistPagesKeepOthers(env, bins[..|bins| - 1], files, page, k);
    }
  }

  /** Each page path holds the page of a linked bin whose page has that path. */
  lemma {:induction false} DistPagesContent(env: TableEnv, bins: seq<BinRecord>, files: map<string, seq<string>>,
                                            page: string -> seq<string>, k: string)
    requires k in PagePaths(env, bins)
    ensures k in DistPages(env, bins, files, page)
    ensures exists j :: && 0 <= j < |bins| && Linked(env, bins[j].bid) && k == PagePath(env.htmlDir, bins[j].bid)
                        && DistPages(env, bins, files, page)[k] == page(bins[j].bid)
    decreases |bins|
  {
    var n := |bins| - 1;
    var prefix := bins[..n];
    var b := bins[n];
    if Linked(env, b.bid) && k == PagePath(env.htmlDir, b.bid) {
      assert DistPages(env, bins, files, page)[k] == page(bins[n].bid);
    } else {
      assert k in PagePaths(env, prefix);
      DistPagesContent(env, prefix, files, page, k);
      var j :| && 0 <= j < n && Linked(env, prefix[j].bid) && k == PagePath(env.htmlDir, prefix[j].bid)
               && DistPages(env, prefix, files, page)[k] == page(prefix[j].bid);
      assert prefix[j] == bins[j];
    }
  }

  /** `needle` inside one write shows up in the file those writes make. */
  lemma {:induction false} ConcatContains(writes: seq<string>, k: int, needle: string, i: int)
    requires 0 <= k < |writes| && OccursAt(writes[k], needle, i)
    ensures Contains(Concat(writes), needle)
    decreases |writes|
  {
    var n := |writes| - 1;
    var pre := Concat(writes[..n]);
    assert Concat(writes) == pre + writes[n];
    if k == n {
      assert (pre + writes[n])[|pre| + i..|pre| + i + |needle|] == writes[n][i..i + |needle|];
      assert OccursAt(Concat(writes), needle, |pre| + i);
    } else {
      assert writes[..n][k] == writes[k];
      ConcatContains(writes[..n], k, needle, i);
      var m :| OccursAt(pre, needle, m);
      assert (pre + writes[n])[m..m + |needle|] == pre[m..m + |needle|];
      assert OccursAt(Concat(writes), needle, m);
    }
  }

  /** The bin's page links back to report.html and shows the image `<bid><ext>`. */
  lemma DistPageLinks(bid: string, plotExt: string)
    ensures Contains(Concat(DistPageWrites(bid, plotExt)), BackLink())
    ensures Contains(Concat(DistPageWrites(bid, plotExt)), PlotImage(bid, plotExt))
  {
    var w := DistPageWrites(bid, plotExt);
    ContainsMiddle("<br>", BackLink(), "Back to summary</a><br>\n");
    ConcatContains(w, 5, BackLink(), 4);
    ContainsMiddle("", PlotImage(bid, plotExt), " width=\"90%\" />\n");
    assert "" + PlotImage(bid, plotExt) == PlotImage(bid, plotExt);
    ConcatContains(w, 7, PlotImage(bid, plotExt), 0);
  }
}
