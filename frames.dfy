/** The part of a pandas data frame that the column classifier looks at,
    and the library calls it makes on cells, which are left abstract. */
module Frames {
  import opened Common

  /** A non-null cell: a Python `str`, or another scalar (int, float, bool)
      given by its `str()` form. */
  datatype Item = Text(s: string) | Scalar(shown: string)

  /** A cell of a column; `Missing` is NaN/None, which `dropna()` drops. */
  datatype Cell = Missing | Present(item: Item)

  /** One column: its name, whether pandas inferred dtype `object` for it,
      and its cells top to bottom. */
  datatype Column = Column(name: string, isObject: bool, cells: seq<Cell>)

  /** A data frame as `pd.read_csv` returns it: `rows` is `shape[0]`,
      `|columns|` is `shape[1]`. */
  datatype Frame = Frame(rows: nat, columns: seq<Column>)

  /** What `pd.read_csv` guarantees: distinct column names and one cell
      per row in every column. */
  ghost predicate Valid(f: Frame)
  {
    (forall i, j :: 0 <= i < j < |f.columns| ==> f.columns[i].name != f.columns[j].name) &&
    (forall i :: 0 <= i < |f.columns| ==> |f.columns[i].cells| == f.rows)
  }

  /** The outcome of `dateutil.parser.parse(text, fuzzy=False)`:
      a date, a ValueError/TypeError, or any other exception
      (an OverflowError on a very long digit string, for one). */
  datatype ParseOutcome = Parsed | Rejected | Crashed

  /** `str(value)` */
  function Shown(x: Item): string
  {
    match x
    case Text(s) => s
    case Scalar(shown) => shown
  }

  /** `series.astype(str)` on one cell: NaN is written "nan". */
  function StrForm(c: Cell): string
  {
    match c
    case Missing => "nan"
    case Present(x) => Shown(x)
  }

  /** `series.dropna().unique()`: the non-null values, each once, in the
      order of their first appearance. */
  function DistinctItems(cells: seq<Cell>): seq<Item>
  {
    if cells == [] then []
    else
      var d := DistinctItems(cells[..|cells| - 1]);
      var last := cells[|cells| - 1];
      if last.Missing? || last.item in d then d else d + [last.item]
  }

  /** The distinct values are exactly the non-null values, each once. */
  lemma {:induction false} DistinctItemsSpec(cells: seq<Cell>)
    ensures forall x :: x in DistinctItems(cells) <==> Present(x) in cells
    ensures var r := DistinctItems(cells);
      forall i, j :: 0 <= i < j < |r| ==> r[i] != r[j]
    ensures DistinctItems(cells) == [] <==> forall c :: c in cells ==> c == Missing
  {
    if cells != [] {
      var front, last := cells[..|cells| - 1], cells[|cells| - 1];
      assert cells == front + [last];
      DistinctItemsSpec(front);
      if DistinctItems(cells) == [] {
        assert DistinctItems(front) == [];
      }
    }
  }
}
