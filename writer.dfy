/**
 * `writer.py`: a CSV writer whose only state is the file it writes. The
 * file system is a map from path to contents; `create_file` truncates and
 * writes the header line, `write_data` appends one row.
 */
module Writer {
  import opened Text

  /** File contents by path. */
  class FileSystem {
    var files: map<string, string>

    constructor (files0: map<string, string>)
      ensures files == files0
    {
      files := files0;
    }
  }

  /** `",".join(header) + "\n"`. */
  function HeaderLine(header: seq<string>): string {
    Join(header, ',') + "\n"
  }

  /** The fields of a row: `str(time)` followed by `str(v)` for each value. */
  function RowFields(time: real, values: seq<real>, render: real -> string): (fields: seq<string>)
    ensures |fields| == |values| + 1
    ensures fields[0] == render(time) && forall k :: 0 <= k < |values| ==> fields[k + 1] == render(values[k])
  {
    [render(time)] + seq(|values|, k requires 0 <= k < |values| => render(values[k]))
  }

  /** The row text without its newline. */
  function RowText(time: real, values: seq<real>, render: real -> string): string {
    Join(RowFields(time, values, render), ',')
  }

  /** `write_data` opens in append mode: a missing file starts out empty. */
  function Current(files: map<string, string>, path: string): string {
    if path in files then files[path] else ""
  }

  /** The file system after `create_file`. */
  function Created(files: map<string, string>, path: string, header: seq<string>): (r: map<string, string>)
    ensures path in r && r[path] == HeaderLine(header)
    ensures forall p :: p != path ==> (p in r <==> p in files) && (p in files ==> r[p] == files[p])
  {
    files[path := HeaderLine(header)]
  }

  /** The file system after `write_data`. */
  function Appended(files: map<string, string>, path: string, row: string): (r: map<string, string>)
    ensures path in r && r[path] == Current(files, path) + row + "\n"
    ensures forall p :: p != path ==> (p in r <==> p in files) && (p in files ==> r[p] == files[p])
  {
    files[path := Current(files, path) + row + "\n"]
  }

  class CSVWriter {
    const name: string
    const header: seq<string>

    constructor (name0: string, header0: seq<string>)
      ensures name == name0 && header == header0
    {
      name := name0;
      header := header0;
    }

    /** Both operations target `name + ".csv"`. */
    function Path(): (p: string)
      ensures |p| == |name| + 4 && p[..|name|] == name && p[|name|..] == ".csv"
    {
      name + ".csv"
    }

    /** `create_file()`: the file then holds the header line alone; other files are untouched. */
    method CreateFile(fs: FileSystem)
      modifies fs
      ensures fs.files == Created(old(fs.files), Path(), header)
    {
      fs.files := fs.files[Path() := HeaderLine(header)];
    }

    /** `write_data(time, values)`: appends one row; the row's length is never checked against the header. */
    method WriteData(fs: FileSystem, time: real, values: seq<real>, render: real -> string)
      modifies fs
      ensures fs.files == Appended(old(fs.files), Path(), RowText(time, values, render))
    {
      var current := if Path() in fs.files then fs.files[Path()] else "";
      fs.files := fs.files[Path() := current + RowText(time, values, render) + "\n"];
    }

    /** `close()` does nothing. */
    method Close(fs: FileSystem)
      ensures fs.files == old(fs.files)
    {
    }
  }

  /** A row written at a time: the time and the values. */
  datatype Row = Row(time: real, values: seq<real>)

  /** The rows' lines, each with its newline, in call order. */
  function RowsText(rows: seq<Row>, render: real -> string): string {
    if |rows| == 0 then ""
    else RowsText(rows[..|rows| - 1], render) + RowText(rows[|rows| - 1].time, rows[|rows| - 1].values, render) + "\n"
  }

  /** The file system after `create_file` and then one `write_data` per row. */
  function Log(files: map<string, string>, path: string, header: seq<string>, rows: seq<Row>, render: real -> string): map<string, string> {
    if |rows| == 0 then Created(files, path, header)
    else Appended(Log(files, path, header, rows[..|rows| - 1], render), path, RowText(rows[|rows| - 1].time, rows[|rows| - 1].values, render))
  }

  /** After `create_file` and k writes the file is the header line followed by the k rows in call order. */
  lemma {:induction false} LogContents(files: map<string, string>, path: string, header: seq<string>, rows: seq<Row>, render: real -> string)
    ensures path in Log(files, path, header, rows, render)
    ensures Log(files, path, header, rows, render)[path] == HeaderLine(header) + RowsText(rows, render)
  {
    if |rows| > 0 {
      LogContents(files, path, header, rows[..|rows| - 1], render);
    }
  }

  /** Renderings of numbers contain neither the field separator nor a newline. */
  ghost predicate PlainRendering(render: real -> string) {
    forall x :: ',' !in render(x) && '\n' !in render(x)
  }

  lemma RowFieldsPlain(time: real, values: seq<real>, render: real -> string)
    requires PlainRendering(render)
    ensures forall k :: 0 <= k < |values| + 1 ==> ',' !in RowFields(time, values, render)[k] && '\n' !in RowFields(time, values, render)[k]
  {
    var fields := RowFields(time, values, render);
    forall k | 0 <= k < |fields|
      ensures ',' !in fields[k] && '\n' !in fields[k]
    {
      var x := if k == 0 then time else values[k - 1];
      assert fields[k] == render(x);
      assert ',' !in render(x) && '\n' !in render(x);
    }
  }

  /** A written row reads back as `len(values) + 1` fields: the rendered time, then the rendered values. */
  lemma RowFieldCount(time: real, values: seq<real>, render: real -> string)
    requires PlainRendering(render)
    ensures Split(RowText(time, values, render), ',') == RowFields(time, values, render)
    ensures |Split(RowText(time, values, render), ',')| == |values| + 1
  {
    RowFieldsPlain(time, values, render);
    SplitJoin(RowFields(time, values, render), ',');
  }

  /** The text of rows, split into lines: one line per row plus the empty piece after the last newline. */
  lemma {:induction false} RowsLines(rows: seq<Row>, render: real -> string)
    requires PlainRendering(render)
    ensures Split(RowsText(rows, render), '\n') ==
      seq(|rows|, k requires 0 <= k < |rows| => RowText(rows[k].time, rows[k].values, render)) + [""]
  {
    if |rows| > 0 {
      var init := rows[..|rows| - 1];
      var last := rows[|rows| - 1];
      var lastText := RowText(last.time, last.values, render);
      RowsLines(init, render);
      assert '\n' !in lastText by {
        RowFieldsPlain(last.time, last.values, render);
        JoinAvoids(RowFields(last.time, last.values, render), ',', '\n');
      }
      SplitConcatLine(RowsText(init, render), lastText);
      var lines := seq(|rows|, k requires 0 <= k < |rows| => RowText(rows[k].time, rows[k].values, render));
      var initLines := seq(|init|, k requires 0 <= k < |init| => RowText(init[k].time, init[k].values, render));
      assert lines == initLines + [lastText];
    }
  }

  /** Appending a line to text that ends in a newline adds that line before the final empty piece. */
  lemma {:induction false} SplitConcatLine(text: string, line: string)
    requires '\n' !in line
    requires |Split(text, '\n')| >= 1 && Split(text, '\n')[|Split(text, '\n')| - 1] == ""
    ensures Split(text + line + "\n", '\n') == Split(text, '\n')[..|Split(text, '\n')| - 1] + [line, ""]
  {
    if |text| == 0 {
      SplitAtSeparator(line, "", '\n');
      assert text + line + "\n" == line + ['\n'] + "";
    } else if text[0] == '\n' {
      SplitConcatLine(text[1..], line);
      assert (text + line + "\n")[1..] == text[1..] + line + "\n";
    } else {
      SplitConcatLine(text[1..], line);
      assert (text + line + "\n")[1..] == text[1..] + line + "\n";
    }
  }

  /**
   * After `create_file` and k writes the file has 1 + k lines: the header
   * first, then the rows in call order.
   */
  lemma LogLines(files: map<string, string>, path: string, header: seq<string>, rows: seq<Row>, render: real -> string)
    requires PlainRendering(render)
    requires forall k :: 0 <= k < |header| ==> '\n' !in header[k]
    ensures path in Log(files, path, header, rows, render)
    ensures Split(Log(files, path, header, rows, render)[path], '\n') ==
      [Join(header, ',')] + seq(|rows|, k requires 0 <= k < |rows| => RowText(rows[k].time, rows[k].values, render)) + [""]
  {
    LogContents(files, path, header, rows, render);
    JoinAvoids(header, ',', '\n');
    RowsLines(rows, render);
    SplitAtSeparator(Join(header, ','), RowsText(rows, render), '\n');
    assert HeaderLine(header) + RowsText(rows, render) == Join(header, ',') + ['\n'] + RowsText(rows, render);
  }
}
