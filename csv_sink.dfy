/**
 * The CSV file the scripts append opportunities to, reduced to what the
 * scripts can observe: whether the file exists, and its rows in order.
 * Quoting and encoding are not part of this model.
 */
module CsvSink {
  import opened Json

  /** A row of the file: the column names, or the cells of one record. */
  datatype Line = Header(columns: seq<string>) | Record(cells: seq<Value>)

  /** The file on disk. A file that does not exist has no rows. */
  class CsvFile {
    var present: bool
    var lines: seq<Line>

    ghost predicate Valid()
      reads this
    {
      !present ==> lines == []
    }

    constructor (present: bool, lines: seq<Line>)
      requires !present ==> lines == []
      ensures Valid() && this.present == present && this.lines == lines
    {
      this.present := present;
      this.lines := lines;
    }

    /** `open(path, 'a')`: creates the file when it is missing, keeps its rows otherwise. */
    method OpenForAppend()
      requires Valid()
      modifies this
      ensures Valid() && present && lines == old(lines)
    {
      present := true;
    }

    /** `writer.writeheader()`. */
    method WriteHeader(columns: seq<string>)
      requires Valid() && present
      modifies this
      ensures Valid() && present && lines == old(lines) + [Header(columns)]
    {
      lines := lines + [Header(columns)];
    }

    /** `writer.writerow(...)`. */
    method WriteRecord(cells: seq<Value>)
      requires Valid() && present
      modifies this
      ensures Valid() && present && lines == old(lines) + [Record(cells)]
    {
      lines := lines + [Record(cells)];
    }
  }

  /** One record row per element of `rows`, in order. */
  function Records(rows: seq<seq<Value>>): (r: seq<Line>)
    ensures |r| == |rows|
    ensures forall i :: 0 <= i < |rows| ==> r[i] == Record(rows[i])
  {
    seq(|rows|, i requires 0 <= i < |rows| => Record(rows[i]))
  }

  /** The rows of a header-once append of `rows` to a file that `existed` (or not) with `lines`. */
  function Appended(existed: bool, lines: seq<Line>, header: seq<string>, rows: seq<seq<Value>>): seq<Line> {
    lines + (if existed then [] else [Header(header)]) + Records(rows)
  }

  /**
   * The file after a series of header-once appends, one per element of
   * `batches`; an empty batch leaves the file alone (it is never opened).
   */
  function History(existed: bool, lines: seq<Line>, header: seq<string>, batches: seq<seq<seq<Value>>>): (bool, seq<Line>)
    decreases |batches|
  {
    if batches == [] then (existed, lines)
    else
      var (e, ls) := History(existed, lines, header, batches[..|batches| - 1]);
      var last := batches[|batches| - 1];
      if last == [] then (e, ls) else (true, Appended(e, ls, header, last))
  }

  /** All rows of all batches, in order. */
  function Flatten(batches: seq<seq<seq<Value>>>): seq<seq<Value>>
    decreases |batches|
  {
    if batches == [] then [] else Flatten(batches[..|batches| - 1]) + batches[|batches| - 1]
  }

  lemma RecordsAppend(a: seq<seq<Value>>, b: seq<seq<Value>>)
    ensures Records(a + b) == Records(a) + Records(b)
  {
  }

  /** A second header-once append to a file the first one created adds records only. */
  lemma AppendedTwice(existed: bool, lines: seq<Line>, header: seq<string>, rows: seq<seq<Value>>, more: seq<seq<Value>>)
    ensures Appended(true, Appended(existed, lines, header, rows), header, more)
         == Appended(existed, lines, header, rows + more)
  {
    RecordsAppend(rows, more);
  }

  /**
   * Starting from a missing file, any series of appends leaves either no
   * file (every batch was empty) or exactly one header, first, followed by
   * every record in call order: the header is never written twice.
   */
  lemma {:induction false} HeaderWrittenOnce(header: seq<string>, batches: seq<seq<seq<Value>>>)
    ensures var (e, ls) := History(false, [], header, batches);
      if Flatten(batches) == [] then !e && ls == []
      else e && ls == [Header(header)] + Records(Flatten(batches))
    decreases |batches|
  {
    if batches != [] {
      var init := batches[..|batches| - 1];
      var last := batches[|batches| - 1];
      HeaderWrittenOnce(header, init);
      RecordsAppend(Flatten(init), last);
    }
  }
}
