/**
 * A pandas DataFrame of one row, as the request handler builds it: a sequence
 * of named columns, each holding the single cell of that row.  Only the
 * operations the handler uses are modelled: construction from one row of
 * values, renaming columns through a dictionary, and selection of a list of
 * columns.  Putting two such frames side by side is sequence concatenation.
 */
module Frames {
  import opened Wrappers

  /** The content of a cell: a category label, or a 0/1 benefit indicator. */
  datatype Cell = Text(text: string) | Number(value: int)

  datatype Column = Column(name: string, cell: Cell)

  type Frame = seq<Column>

  function Names(f: Frame): seq<string> {
    seq(|f|, i requires 0 <= i < |f| => f[i].name)
  }

  predicate Distinct(s: seq<string>) {
    forall i, j :: 0 <= i < j < |s| ==> s[i] != s[j]
  }

  /** No two keys of `mapping` are sent to the same value. */
  predicate Injective(mapping: map<string, string>) {
    forall a, b :: a in mapping && b in mapping && a != b ==> mapping[a] != mapping[b]
  }

  /**
   * `DataFrame([values], columns=columns)`: one row whose i-th cell sits under
   * the i-th name; pandas raises when the two lists differ in length.
   */
  function FromRow(columns: seq<string>, values: seq<Cell>): (r: Result<Frame, string>)
    ensures r.Success? <==> |columns| == |values|
    ensures r.Success? ==> Names(r.value) == columns
    ensures r.Success? ==> forall i :: 0 <= i < |values| ==> r.value[i].cell == values[i]
  {
    if |columns| != |values| then
      Failure("shape of passed values does not match the number of columns")
    else
      Success(seq(|columns|, i requires 0 <= i < |columns| => Column(columns[i], values[i])))
  }

  /** The new name of a column under `rename(columns=mapping)`. */
  function RenamedName(name: string, mapping: map<string, string>): string {
    if name in mapping then mapping[name] else name
  }

  /**
   * `rename(columns=mapping)`: a column whose name is a key of the mapping
   * takes the mapped name; every other name, and every cell, stays.
   */
  function Rename(f: Frame, mapping: map<string, string>): Frame {
    seq(|f|, i requires 0 <= i < |f| => Column(RenamedName(f[i].name, mapping), f[i].cell))
  }

  /**
   * Renaming through a mapping that is defined on every column and injective
   * neither drops nor merges columns: distinct names stay distinct, and
   * position i holds the same cell under the mapped name.
   */
  lemma RenameKeepsColumns(f: Frame, mapping: map<string, string>)
    requires Distinct(Names(f))
    requires forall i :: 0 <= i < |f| ==> f[i].name in mapping
    requires Injective(mapping)
    ensures |Rename(f, mapping)| == |f|
    ensures Distinct(Names(Rename(f, mapping)))
    ensures forall i :: 0 <= i < |f| ==>
      Rename(f, mapping)[i] == Column(mapping[f[i].name], f[i].cell)
  {
    var r := Rename(f, mapping);
    forall i, j | 0 <= i < j < |r|
      ensures Names(r)[i] != Names(r)[j]
    {
      assert Names(f)[i] != Names(f)[j];
    }
  }

  /** The position of the first occurrence of `name`, or `|names|` when it is absent. */
  function IndexOf(names: seq<string>, name: string): (k: nat)
    ensures k <= |names|
    ensures k < |names| ==> names[k] == name
    ensures forall j :: 0 <= j < k ==> names[j] != name
  {
    if names == [] then 0
    else if names[0] == name then 0
    else 1 + IndexOf(names[1..], name)
  }

  /**
   * `f[names]`: the listed columns in the listed order, each the first column
   * of `f` with that name; pandas raises KeyError when a name is missing, and
   * the failure carries a missing name.
   */
  function Select(f: Frame, names: seq<string>): (r: Result<Frame, string>)
    ensures r.Success? <==> forall n :: n in names ==> n in Names(f)
    ensures r.Failure? ==> r.error in names && r.error !in Names(f)
    ensures r.Success? ==> Names(r.value) == names
    ensures r.Success? ==> forall i :: 0 <= i < |names| ==> r.value[i] in f
  {
    if names == [] then Success([])
    else
      var k := IndexOf(Names(f), names[0]);
      if k == |f| then
        assert names[0] in names && names[0] !in Names(f);
        Failure(names[0])
      else
        match Select(f, names[1..])
        case Success(rest) => Success([f[k]] + rest)
        case Failure(missing) => Failure(missing)
  }

  lemma {:induction false} SelectSuffix(f: Frame, k: nat)
    requires Distinct(Names(f))
    requires k <= |f|
    ensures Select(f, Names(f)[k..]) == Success(f[k..])
    decreases |f| - k
  {
    if k < |f| {
      SelectSuffix(f, k + 1);
      var names := Names(f)[k..];
      assert names[0] == f[k].name;
      assert names[1..] == Names(f)[k + 1..];
      var j := IndexOf(Names(f), f[k].name);
      assert Names(f)[k] == f[k].name;
      assert j == k;
      assert Select(f, names) == Success([f[k]] + f[k + 1..]);
      assert f[k..] == [f[k]] + f[k + 1..];
    } else {
      assert Names(f)[k..] == [] && f[k..] == [];
      assert Select(f, []) == Success([]);
    }
  }

  /**
   * Selecting a frame's own columns, in their own order, returns the frame
   * unchanged whenever its column names are distinct.
   */
  lemma SelectOwnNames(f: Frame)
    requires Distinct(Names(f))
    ensures Select(f, Names(f)) == Success(f)
  {
    SelectSuffix(f, 0);
    assert Names(f)[0..] == Names(f);
    assert f[0..] == f;
  }
}
