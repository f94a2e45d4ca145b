/** The comma-separated rows the harness appends to its results file: one row
    per result, eight fields, a newline at the end. Numbers are rendered by
    `fmt`, which stands for the stream formatting of a double and is opaque here. */
module Csv {
  import opened Wrappers
  import opened Sampling

  const Separator: char := ','

  /** The fields joined by single commas. */
  function Join(fields: seq<string>): string
  {
    if |fields| == 0 then ""
    else if |fields| == 1 then fields[0]
    else fields[0] + [Separator] + Join(fields[1..])
  }

  /** The line cut at every comma, as a reader of the file splits it. */
  function Split(line: string): (fields: seq<string>)
    ensures |fields| >= 1
  {
    if line == [] then [""]
    else
      var rest := Split(line[1..]);
      if line[0] == Separator then [""] + rest
      else [[line[0]] + rest[0]] + rest[1..]
  }

  /** A field that neither splits a row nor ends it. */
  predicate IsPlainField(field: string)
  {
    Separator !in field && '\n' !in field
  }

  /** The coefficient of variation as written; an undefined one prints as "nan". */
  function FormatCoefficient(cv: Option<real>, fmt: real -> string): string
  {
    match cv
    case Some(v) => fmt(v)
    case None => "nan"
  }

  /** The fields of one row, in file order. */
  function RowFields(launchTime: string, setName: string, r: BenchmarkResult, fmt: real -> string): seq<string>
  {
    [launchTime, setName, r.funcName, r.testName,
     fmt(r.mean), fmt(r.variance), fmt(r.standardDeviation),
     FormatCoefficient(r.coefficientOfVariation, fmt)]
  }

  /** One row of the results file. */
  function CsvRow(launchTime: string, setName: string, r: BenchmarkResult, fmt: real -> string): string
  {
    Join(RowFields(launchTime, setName, r, fmt)) + "\n"
  }

  /** The rows for a whole result list, one per result, in list order. */
  function CsvRows(launchTime: string, setName: string, results: seq<BenchmarkResult>, fmt: real -> string): (rows: seq<string>)
    ensures |rows| == |results|
  {
    seq(|results|, i requires 0 <= i < |results| => CsvRow(launchTime, setName, results[i], fmt))
  }

  /** A row without its final newline, split at its commas. */
  function ParseRow(row: string): seq<string>
    requires |row| > 0
  {
    Split(row[..|row| - 1])
  }

  /** A comma-free field splits to itself. */
  lemma {:induction false} SplitPlain(a: string)
    requires Separator !in a
    ensures Split(a) == [a]
  {
    if a != [] {
      SplitPlain(a[1..]);
      assert [a[0]] + a[1..] == a;
    }
  }

  /** Splitting stops at the first comma. */
  lemma {:induction false} SplitAtSeparator(a: string, b: string)
    requires Separator !in a
    ensures Split(a + [Separator] + b) == [a] + Split(b)
  {
    var line := a + [Separator] + b;
    if a == [] {
      assert line[1..] == b;
    } else {
      assert line[1..] == a[1..] + [Separator] + b;
      SplitAtSeparator(a[1..], b);
      assert [a[0]] + a[1..] == a;
    }
  }

  /** Splitting undoes joining when no field holds a comma. */
  lemma {:induction false} SplitJoin(fields: seq<string>)
    requires |fields| >= 1
    requires forall i :: 0 <= i < |fields| ==> Separator !in fields[i]
    ensures Split(Join(fields)) == fields
  {
    if |fields| == 1 {
      SplitPlain(fields[0]);
    } else {
      SplitAtSeparator(fields[0], Join(fields[1..]));
      SplitJoin(fields[1..]);
    }
  }

  /** A join of newline-free fields holds no newline. */
  lemma {:induction false} JoinPlain(fields: seq<string>)
    requires forall i :: 0 <= i < |fields| ==> '\n' !in fields[i]
    ensures '\n' !in Join(fields)
  {
    if |fields| > 1 {
      JoinPlain(fields[1..]);
    }
  }

  /** Each row is one line: it ends with its only newline, and holds exactly the eight values, in the order
      launch time, set name, function name, test name, mean, variance, standard
      deviation, coefficient of variation, provided that none of them holds a comma. */
  lemma RowLayout(launchTime: string, setName: string, r: BenchmarkResult, fmt: real -> string)
    requires forall f :: f in RowFields(launchTime, setName, r, fmt) ==> IsPlainField(f)
    ensures var row := CsvRow(launchTime, setName, r, fmt);
      |row| > 0 && row[|row| - 1] == '\n' && '\n' !in row[..|row| - 1] &&
      ParseRow(row) == [launchTime, setName, r.funcName, r.testName,
                        fmt(r.mean), fmt(r.variance), fmt(r.standardDeviation),
                        FormatCoefficient(r.coefficientOfVariation, fmt)] &&
      |ParseRow(row)| == 8
  {
    var fields := RowFields(launchTime, setName, r, fmt);
    var row := CsvRow(launchTime, setName, r, fmt);
    assert row[..|row| - 1] == Join(fields);
    assert forall i :: 0 <= i < |fields| ==> fields[i] in fields;
    SplitJoin(fields);
    JoinPlain(fields);
  }

  /** The rows of a concatenated result list are the rows of its parts, in order. */
  lemma CsvRowsAppend(launchTime: string, setName: string, a: seq<BenchmarkResult>, b: seq<BenchmarkResult>, fmt: real -> string)
    ensures CsvRows(launchTime, setName, a + b, fmt) == CsvRows(launchTime, setName, a, fmt) + CsvRows(launchTime, setName, b, fmt)
  {
  }
}
