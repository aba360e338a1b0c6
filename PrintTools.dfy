/**
 * The computable parts of the print toolbox
 * (packages/cerebro-core/src/toolbox/print-tools.ts): the verbosity and
 * output constants, table column widths and header dividers, the header
 * handling of the markdown table, and when `print` suppresses output.
 */
module PrintTools {
  import opened Js
  import opened Strings

  const OutputNormal: int := 1
  const OutputRaw: int := 2
  const OutputPlain: int := 4

  const VerbosityQuiet: int := 16
  const VerbosityNormal: int := 32
  const VerbosityVerbose: int := 64
  const VerbosityVeryVerbose: int := 128
  const VerbosityDebug: int := 256

  /** The verbosity levels grow from quiet to debug, each twice the one before. */
  lemma VerbosityOrder()
    ensures VerbosityQuiet < VerbosityNormal < VerbosityVerbose < VerbosityVeryVerbose < VerbosityDebug
    ensures VerbosityNormal == 2 * VerbosityQuiet && VerbosityVerbose == 2 * VerbosityNormal
    ensures VerbosityVeryVerbose == 2 * VerbosityVerbose && VerbosityDebug == 2 * VerbosityVeryVerbose
  {
  }

  function Max(a: int, b: int): int
  {
    if a >= b then a else b
  }

  /** One step of the `findWidths` reduction: one width per cell of row. */
  function WidthStep(widths: seq<int>, row: seq<string>): (r: seq<int>)
    ensures |r| == |row|
    ensures forall i :: 0 <= i < |row| ==> r[i] == Max(|row[i]| + 1, if i < |widths| && widths[i] != 0 then widths[i] else 1)
  {
    seq(|row|, i requires 0 <= i < |row| => Max(|row[i]| + 1, if i < |widths| && widths[i] != 0 then widths[i] else 1))
  }

  /** The reduction over a list of rows, from an empty vector. */
  function FoldWidths(rows: seq<seq<string>>): (r: seq<int>)
    ensures |rows| == 0 ==> r == []
    ensures |rows| > 0 ==> |r| == |rows[|rows| - 1]|
  {
    if |rows| == 0 then [] else WidthStep(FoldWidths(rows[..|rows| - 1]), rows[|rows| - 1])
  }

  /** `findWidths(table)`: the reduction over the header followed by the rows. */
  function FindWidths(head: seq<string>, rows: seq<seq<string>>): seq<int>
  {
    FoldWidths([head] + rows)
  }

  /** All rows have n cells. */
  predicate Rectangular(rows: seq<seq<string>>, n: nat)
  {
    forall k :: 0 <= k < |rows| ==> |rows[k]| == n
  }

  /**
   * On rows of equal length, width i is one more than the longest cell of
   * column i: at least every cell's length plus one, and reached by some cell.
   */
  lemma {:induction false} FoldWidthsRectangular(rows: seq<seq<string>>, n: nat)
    requires |rows| > 0 && Rectangular(rows, n)
    ensures |FoldWidths(rows)| == n
    ensures forall i, k :: 0 <= i < n && 0 <= k < |rows| ==> FoldWidths(rows)[i] >= |rows[k][i]| + 1
    ensures forall i :: 0 <= i < n ==> exists k :: 0 <= k < |rows| && FoldWidths(rows)[i] == |rows[k][i]| + 1
    decreases |rows|
  {
    var last := |rows| - 1;
    var r := FoldWidths(rows);
    if last == 0 {
      forall i | 0 <= i < n
        ensures exists k :: 0 <= k < |rows| && r[i] == |rows[k][i]| + 1
      {
        assert r[i] == |rows[0][i]| + 1;
      }
    } else {
      var prefix := rows[..last];
      FoldWidthsRectangular(prefix, n);
      var w := FoldWidths(prefix);
      assert r == WidthStep(w, rows[last]);
      forall i, k | 0 <= i < n && 0 <= k < |rows|
        ensures r[i] >= |rows[k][i]| + 1
      {
        if k < last {
          assert rows[k] == prefix[k];
        }
      }
      forall i | 0 <= i < n
        ensures exists k :: 0 <= k < |rows| && r[i] == |rows[k][i]| + 1
      {
        var j :| 0 <= j < |prefix| && w[i] == |prefix[j][i]| + 1;
        if r[i] == w[i] {
          assert rows[j] == prefix[j];
        } else {
          assert r[i] == |rows[last][i]| + 1;
        }
      }
    }
  }

  /** Every width is at least 1. */
  lemma {:induction false} FoldWidthsPositive(rows: seq<seq<string>>)
    ensures forall i :: 0 <= i < |FoldWidths(rows)| ==> FoldWidths(rows)[i] >= 1
    decreases |rows|
  {
    if |rows| > 0 {
      FoldWidthsPositive(rows[..|rows| - 1]);
    }
  }

  /** `Array.from({ length: w }).join("-")`: w empty strings joined, so w - 1 dashes. */
  function Dashes(w: int): (r: string)
    ensures |r| == if w >= 1 then w - 1 else 0
    ensures forall i :: 0 <= i < |r| ==> r[i] == '-'
  {
    if w <= 1 then "" else Dashes(w - 1) + "-"
  }

  /** `columnHeaderDivider(table)`: one run of dashes per column, one shorter than the column. */
  function ColumnHeaderDivider(head: seq<string>, rows: seq<seq<string>>): (r: seq<string>)
    ensures |r| == |FindWidths(head, rows)|
    ensures forall i :: 0 <= i < |r| ==> |r[i]| == FindWidths(head, rows)[i] - 1
  {
    var widths := FindWidths(head, rows);
    FoldWidthsPositive([head] + rows);
    seq(|widths|, i requires 0 <= i < |widths| => Dashes(widths[i]))
  }

  /** On a header and rows of the header's length, each divider is as long as the column's longest cell. */
  lemma DividerFitsColumns(head: seq<string>, rows: seq<seq<string>>)
    requires Rectangular(rows, |head|)
    ensures |ColumnHeaderDivider(head, rows)| == |head|
    ensures forall i :: 0 <= i < |head| ==> |ColumnHeaderDivider(head, rows)[i]| >= |head[i]|
    ensures forall i, k :: 0 <= i < |head| && 0 <= k < |rows| ==> |ColumnHeaderDivider(head, rows)[i]| >= |rows[k][i]|
  {
    var all := [head] + rows;
    assert Rectangular(all, |head|);
    FoldWidthsRectangular(all, |head|);
    forall i | 0 <= i < |head|
      ensures FindWidths(head, rows)[i] >= |head[i]| + 1
    {
      assert all[0] == head;
    }
    forall i, k | 0 <= i < |head| && 0 <= k < |rows|
      ensures FindWidths(head, rows)[i] >= |rows[k][i]| + 1
    {
      assert all[k + 1] == rows[k];
    }
  }

  /** The table options' `format`. */
  datatype TableFormat = Markdown | Lean | Compact

  /** What `table` hands to cli-table3: an optional header and the body rows in order. */
  datatype TableModel = TableModel(head: Option<seq<string>>, rows: seq<seq<string>>)

  /** A caller's `string[][]`, which the markdown table changes in place. */
  class TableData {
    var rows: seq<seq<string>>

    constructor(rows: seq<seq<string>>)
      ensures this.rows == rows
    {
      this.rows := rows;
    }
  }

  /**
   * `table(data, options)`. The markdown format shifts the header off the
   * caller's data, then puts the divider row above the remaining rows; the
   * other formats leave the data alone. On empty data `shift` yields
   * undefined as the header, and `findWidths` throws when it maps over it.
   */
  method Table(data: TableData, format: TableFormat) returns (r: Result<TableModel>)
    modifies data
    ensures format == Markdown && |old(data.rows)| > 0 ==>
              data.rows == old(data.rows)[1..]
              && r == Ok(TableModel(Some(old(data.rows)[0]),
                                    [ColumnHeaderDivider(old(data.rows)[0], data.rows)] + data.rows))
    ensures format == Markdown && |old(data.rows)| == 0 ==>
              data.rows == [] && r == Err(TypeError("Cannot read properties of undefined (reading 'map')"))
    ensures format != Markdown ==> data.rows == old(data.rows) && r == Ok(TableModel(None, data.rows))
  {
    if format == Markdown {
      if |data.rows| == 0 {
        return Err(TypeError("Cannot read properties of undefined (reading 'map')"));
      }
      var header := data.rows[0];
      data.rows := data.rows[1..];
      var body := data.rows;
      r := Ok(TableModel(Some(header), [ColumnHeaderDivider(header, body)] + body));
    } else {
      r := Ok(TableModel(None, data.rows));
    }
  }

  /**
   * Whether `print` writes nothing: under NODE_ENV "test", or when
   * CEREBRO_OUTPUT (not CEREBRO_OUTPUT_LEVEL) reads as the number 16.
   * `Number(undefined)` is NaN.
   */
  predicate PrintSuppressed(nodeEnv: Option<string>, cerebroOutput: Option<string>)
  {
    nodeEnv == Some("test")
    || (cerebroOutput.Some? && ToNumber(cerebroOutput.value) == Some(VerbosityQuiet))
  }

  /** CEREBRO_OUTPUT set to the decimal text of a level suppresses output exactly for the quiet level. */
  lemma PrintSuppressedByLevel(nodeEnv: Option<string>, level: int)
    requires nodeEnv != Some("test")
    ensures PrintSuppressed(nodeEnv, Some(IntToString(level))) <==> level == VerbosityQuiet
  {
    NumberOfIntToString(level);
  }

  /** Outside the test environment and without CEREBRO_OUTPUT, output is written. */
  lemma PrintNotSuppressedByDefault(nodeEnv: Option<string>)
    requires nodeEnv != Some("test")
    ensures !PrintSuppressed(nodeEnv, None)
    ensures PrintSuppressed(Some("test"), None)
  {
  }
}
