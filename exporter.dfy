/** The protein-complex exporter: from the multidata table it keeps the rows
    whose `id_multidata` takes part in at least one interaction (as
    `multidata_1_id` or `multidata_2_id`), and projects the kept rows onto
    the thirteen columns of the export. */
module ProteinComplexExport {

  /** A table cell. Floating-point cells are not modelled. */
  datatype Cell = IntCell(i: int) | StrCell(s: string) | BoolCell(b: bool) | NullCell

  /** A row maps each column label of its table to a cell. */
  type Row = map<string, Cell>

  /** A table: its column labels, in order, and its rows, in order. */
  datatype Frame = Frame(columns: seq<string>, rows: seq<Row>)

  /** The outcome of the export: the projected table, or the KeyError raised
      when a column it looks up is not in its table (with the missing labels). */
  datatype Exported = Exported(frame: Frame) | KeyError(missing: seq<string>)

  const IdColumn := "id_multidata"
  const Interactor1Column := "multidata_1_id"
  const Interactor2Column := "multidata_2_id"

  /** The columns of the export, in the order in which they are selected. */
  const ExportColumns: seq<string> :=
    ["name", "protein_name", "transmembrane", "secreted", "peripheral", "integrin",
     "secreted_highlight", "secreted_desc", "other", "other_desc", "tags",
     "tags_description", "tags_reason"]

  /** No column label is repeated. */
  predicate DistinctLabels(columns: seq<string>) {
    forall i, j :: 0 <= i < j < |columns| ==> columns[i] != columns[j]
  }

  /** No column label is repeated, and every row of a table holds a cell for
      exactly the table's columns. */
  predicate WellFormed(f: Frame) {
    DistinctLabels(f.columns) &&
    forall i :: 0 <= i < |f.rows| ==> f.rows[i].Keys == set c | c in f.columns
  }

  /** The thirteen export columns are thirteen different labels. */
  lemma ExportColumnsDistinct()
    ensures DistinctLabels(ExportColumns)
  {
  }

  /** Every row holds a cell in column `c`. */
  predicate HasColumn(rows: seq<Row>, c: string) {
    forall i :: 0 <= i < |rows| ==> c in rows[i]
  }

  /** The column `c` of a table, as a series in row order. */
  function Column(rows: seq<Row>, c: string): (col: seq<Cell>)
    requires HasColumn(rows, c)
    ensures |col| == |rows|
    ensures forall i :: 0 <= i < |rows| ==> col[i] == rows[i][c]
  {
    seq(|rows|, i requires 0 <= i < |rows| => rows[i][c])
  }

  /** The value Python's `==` compares a cell by: `True` equals `1` and
      `False` equals `0`; other cells are equal only when they are the same
      value. */
  function PyKey(c: Cell): Cell {
    match c
    case BoolCell(b) => IntCell(if b then 1 else 0)
    case _ => c
  }

  /** Python's `a == b` on cells. */
  predicate PyEq(a: Cell, b: Cell) {
    PyKey(a) == PyKey(b)
  }

  /** Python's `x in list`: some element of the list is `==` to `x`. */
  predicate Contains(list: seq<Cell>, x: Cell) {
    exists j :: 0 <= j < |list| && PyEq(list[j], x)
  }

  /** The series without repeated values, equality being Python's `==`:
      it answers `in` exactly as the series does, no two of its values are
      equal, and it is never longer. */
  function DropDuplicates(s: seq<Cell>): (r: seq<Cell>)
    ensures forall x :: Contains(r, x) <==> Contains(s, x)
    ensures forall i, j :: 0 <= i < j < |r| ==> !PyEq(r[i], r[j])
    ensures |r| <= |s|
  {
    if s == [] then []
    else
      var prefix := DropDuplicates(s[..|s| - 1]);
      ContainsAppend(s[..|s| - 1], s[|s| - 1]);
      ContainsAppend(prefix, s[|s| - 1]);
      assert s == s[..|s| - 1] + [s[|s| - 1]];
      if Contains(prefix, s[|s| - 1]) then prefix else prefix + [s[|s| - 1]]
  }

  /** A value is in a list with one more element exactly when it is in the
      list or equal to that element. */
  lemma ContainsAppend(list: seq<Cell>, y: Cell)
    ensures forall x :: Contains(list + [y], x) <==> Contains(list, x) || PyEq(y, x)
  {
    forall x | Contains(list + [y], x)
      ensures Contains(list, x) || PyEq(y, x)
    {
      var j :| 0 <= j < |list + [y]| && PyEq((list + [y])[j], x);
      if j < |list| {
        assert PyEq(list[j], x);
      }
    }
    forall x | Contains(list, x)
      ensures Contains(list + [y], x)
    {
      var j :| 0 <= j < |list| && PyEq(list[j], x);
      assert (list + [y])[j] == list[j];
    }
    forall x | PyEq(y, x)
      ensures Contains(list + [y], x)
    {
      assert (list + [y])[|list|] == y;
    }
  }

  /** The ids of the multidata that take part in an interaction: the column
      `multidata_1_id` followed by the column `multidata_2_id`, without
      repetitions. */
  function InteractorIds(interactions: seq<Row>): (ids: seq<Cell>)
    requires HasColumn(interactions, Interactor1Column) && HasColumn(interactions, Interactor2Column)
  {
    DropDuplicates(Column(interactions, Interactor1Column) + Column(interactions, Interactor2Column))
  }

  /** `id` occurs in one of the two interactor columns of `interactions`. */
  predicate Interacts(id: Cell, interactions: seq<Row>)
    requires HasColumn(interactions, Interactor1Column) && HasColumn(interactions, Interactor2Column)
  {
    exists i :: 0 <= i < |interactions| &&
      (PyEq(interactions[i][Interactor1Column], id) || PyEq(interactions[i][Interactor2Column], id))
  }

  /** The positions at which the membership mask over `id_multidata` is true,
      in increasing order. */
  function KeptPositions(rows: seq<Row>, ids: seq<Cell>): (ks: seq<nat>)
    requires HasColumn(rows, IdColumn)
    ensures forall k :: 0 <= k < |ks| ==> ks[k] < |rows| && Contains(ids, rows[ks[k]][IdColumn])
    ensures forall k, l :: 0 <= k < l < |ks| ==> ks[k] < ks[l]
    ensures forall p :: 0 <= p < |rows| && Contains(ids, rows[p][IdColumn]) ==> p in ks
    ensures |ks| <= |rows|
  {
    if rows == [] then []
    else
      var n := |rows| - 1;
      KeptPositions(rows[..n], ids) + (if Contains(ids, rows[n][IdColumn]) then [n] else [])
  }

  /** A row restricted to the export columns. */
  function Project(row: Row): (r: Row)
    requires forall c :: c in ExportColumns ==> c in row
    ensures r.Keys == set c | c in ExportColumns
    ensures forall c :: c in r ==> r[c] == row[c]
  {
    map c | c in ExportColumns :: row[c]
  }

  /** The labels of `wanted` that are not among `columns`, in order. */
  function MissingColumns(wanted: seq<string>, columns: seq<string>): (m: seq<string>)
    ensures forall c :: c in m <==> c in wanted && c !in columns
  {
    if wanted == [] then []
    else (if wanted[0] in columns then [] else [wanted[0]]) + MissingColumns(wanted[1..], columns)
  }

  /** All columns the export looks up are present. */
  predicate HasExportColumns(multidatas: Frame, interactions: Frame) {
    Interactor1Column in interactions.columns && Interactor2Column in interactions.columns &&
    IdColumn in multidatas.columns && forall c :: c in ExportColumns ==> c in multidatas.columns
  }

  /** The positions of the multidata rows the export keeps. */
  function ExportPositions(multidatas: Frame, interactions: Frame): (ps: seq<nat>)
    requires WellFormed(multidatas) && WellFormed(interactions)
    requires HasExportColumns(multidatas, interactions)
  {
    assert HasColumn(multidatas.rows, IdColumn);
    KeptPositions(multidatas.rows, InteractorIds(interactions.rows))
  }

  /** The export. Each column lookup fails with a KeyError in the order the
      lookups are made: the two interactor columns, then `id_multidata`, then
      the projection onto the export columns. */
  function Call(multidatas: Frame, interactions: Frame): (r: Exported)
    requires WellFormed(multidatas) && WellFormed(interactions)
    ensures r.Exported? <==> HasExportColumns(multidatas, interactions)
    ensures r.KeyError? ==> r.missing != []
    ensures r.Exported? ==> r.frame.columns == ExportColumns && WellFormed(r.frame)
    ensures r.Exported? ==> |r.frame.rows| <= |multidatas.rows|
  {
    if Interactor1Column !in interactions.columns then KeyError([Interactor1Column])
    else if Interactor2Column !in interactions.columns then KeyError([Interactor2Column])
    else if IdColumn !in multidatas.columns then KeyError([IdColumn])
    else
      var missing := MissingColumns(ExportColumns, multidatas.columns);
      if missing != [] then
        assert missing[0] in missing;
        KeyError(missing)
      else
        var kept := ExportPositions(multidatas, interactions);
        ExportColumnsDistinct();
        Exported(Frame(ExportColumns,
          seq(|kept|, k requires 0 <= k < |kept| => Project(multidatas.rows[kept[k]]))))
  }

  /** A sequence of positions in strictly increasing order. */
  predicate Increasing(ps: seq<nat>) {
    forall k, l :: 0 <= k < l < |ps| ==> ps[k] < ps[l]
  }

  /** The interactor id list holds exactly the ids that occur in either
      interactor column. */
  lemma InteractorIdsExact(interactions: seq<Row>, id: Cell)
    requires HasColumn(interactions, Interactor1Column) && HasColumn(interactions, Interactor2Column)
    ensures Contains(InteractorIds(interactions), id) <==> Interacts(id, interactions)
  {
    var c1 := Column(interactions, Interactor1Column);
    var c2 := Column(interactions, Interactor2Column);
    if Contains(c1 + c2, id) {
      var j :| 0 <= j < |c1 + c2| && PyEq((c1 + c2)[j], id);
      if j < |c1| {
        assert PyEq(interactions[j][Interactor1Column], id);
      } else {
        assert PyEq(interactions[j - |c1|][Interactor2Column], id);
      }
    }
    if Interacts(id, interactions) {
      var i :| 0 <= i < |interactions| &&
        (PyEq(interactions[i][Interactor1Column], id) || PyEq(interactions[i][Interactor2Column], id));
      if PyEq(interactions[i][Interactor1Column], id) {
        assert (c1 + c2)[i] == interactions[i][Interactor1Column];
      } else {
        assert (c1 + c2)[|c1| + i] == interactions[i][Interactor2Column];
      }
    }
  }

  /** Soundness, completeness and order in one statement: the exported rows
      are the projections of the multidata rows at an increasing sequence of
      positions, and a position is among them exactly when the row's
      `id_multidata` occurs in an interactor column. Rows are neither
      reordered nor merged: equal rows with an interacting id are all kept. */
  lemma ExportSelectsInteractingRows(multidatas: Frame, interactions: Frame)
    requires WellFormed(multidatas) && WellFormed(interactions)
    requires Call(multidatas, interactions).Exported?
    ensures var out := Call(multidatas, interactions).frame.rows;
      var ps := ExportPositions(multidatas, interactions);
      |ps| == |out| && Increasing(ps) &&
      (forall k :: 0 <= k < |ps| ==> ps[k] < |multidatas.rows| && out[k] == Project(multidatas.rows[ps[k]])) &&
      (forall p :: 0 <= p < |multidatas.rows| ==>
         (p in ps <==> Interacts(multidatas.rows[p][IdColumn], interactions.rows)))
  {
    forall id {
      InteractorIdsExact(interactions.rows, id);
    }
  }

  /** Soundness: every exported row is the projection of a multidata row
      whose id occurs in an interactor column. */
  lemma ExportSound(multidatas: Frame, interactions: Frame, k: nat)
    requires WellFormed(multidatas) && WellFormed(interactions)
    requires Call(multidatas, interactions).Exported?
    requires k < |Call(multidatas, interactions).frame.rows|
    ensures exists p :: (0 <= p < |multidatas.rows| &&
      Call(multidatas, interactions).frame.rows[k] == Project(multidatas.rows[p]) &&
      Interacts(multidatas.rows[p][IdColumn], interactions.rows))
  {
    ExportSelectsInteractingRows(multidatas, interactions);
    var ps := ExportPositions(multidatas, interactions);
    assert ps[k] in ps;
  }

  /** Completeness: the projection of every multidata row whose id occurs in
      an interactor column is among the exported rows. */
  lemma ExportComplete(multidatas: Frame, interactions: Frame, p: nat)
    requires WellFormed(multidatas) && WellFormed(interactions)
    requires Call(multidatas, interactions).Exported?
    requires p < |multidatas.rows| && Interacts(multidatas.rows[p][IdColumn], interactions.rows)
    ensures Project(multidatas.rows[p]) in Call(multidatas, interactions).frame.rows
  {
    ExportSelectsInteractingRows(multidatas, interactions);
    var out := Call(multidatas, interactions).frame.rows;
    var ps := ExportPositions(multidatas, interactions);
    var k :| 0 <= k < |ps| && ps[k] == p;
    assert out[k] == Project(multidatas.rows[p]);
  }

  /** Each exported row holds exactly the export columns, with the values of
      the multidata row it comes from. */
  lemma ExportRowShape(multidatas: Frame, interactions: Frame, k: nat)
    requires WellFormed(multidatas) && WellFormed(interactions)
    requires Call(multidatas, interactions).Exported?
    requires k < |Call(multidatas, interactions).frame.rows|
    ensures var row := Call(multidatas, interactions).frame.rows[k];
      row.Keys == (set c | c in ExportColumns) &&
      exists p :: 0 <= p < |multidatas.rows| && forall c :: c in ExportColumns ==> row[c] == multidatas.rows[p][c]
  {
  }

  /** With an empty id list the membership mask is false everywhere. */
  lemma {:induction false} NothingKeptWithoutIds(rows: seq<Row>)
    requires HasColumn(rows, IdColumn)
    ensures KeptPositions(rows, []) == []
  {
    if rows != [] {
      NothingKeptWithoutIds(rows[..|rows| - 1]);
    }
  }

  /** An interactions table without rows exports no rows. */
  lemma ExportOfNoInteractions(multidatas: Frame, interactions: Frame)
    requires WellFormed(multidatas) && WellFormed(interactions)
    requires interactions.rows == []
    requires Call(multidatas, interactions).Exported?
    ensures Call(multidatas, interactions).frame.rows == []
  {
    assert InteractorIds(interactions.rows) == [];
    assert HasColumn(multidatas.rows, IdColumn);
    NothingKeptWithoutIds(multidatas.rows);
  }

  /** The kept positions depend only on which ids are in the list, not on
      the list's order or repetitions. */
  lemma {:induction false} KeptPositionsByMembership(rows: seq<Row>, ids1: seq<Cell>, ids2: seq<Cell>)
    requires HasColumn(rows, IdColumn)
    requires forall x :: Contains(ids1, x) <==> Contains(ids2, x)
    ensures KeptPositions(rows, ids1) == KeptPositions(rows, ids2)
  {
    if rows != [] {
      KeptPositionsByMembership(rows[..|rows| - 1], ids1, ids2);
    }
  }

  /** The export depends on the interactions only through which ids occur
      in their interactor columns: not on the order of the interactions, on
      repetitions, on which of the two columns names an id, or on which row
      does. */
  lemma ExportDependsOnlyOnInteractorIds(multidatas: Frame, interactions1: Frame, interactions2: Frame)
    requires WellFormed(multidatas) && WellFormed(interactions1) && WellFormed(interactions2)
    requires Interactor1Column in interactions1.columns <==> Interactor1Column in interactions2.columns
    requires Interactor2Column in interactions1.columns <==> Interactor2Column in interactions2.columns
    requires Interactor1Column in interactions1.columns && Interactor2Column in interactions1.columns ==>
      forall x :: Interacts(x, interactions1.rows) <==> Interacts(x, interactions2.rows)
    ensures Call(multidatas, interactions1) == Call(multidatas, interactions2)
  {
    if HasExportColumns(multidatas, interactions1) {
      assert HasColumn(multidatas.rows, IdColumn);
      var rs1, rs2 := interactions1.rows, interactions2.rows;
      forall x
        ensures Contains(InteractorIds(rs1), x) <==> Contains(InteractorIds(rs2), x)
      {
        InteractorIdsExact(rs1, x);
        InteractorIdsExact(rs2, x);
      }
      KeptPositionsByMembership(multidatas.rows, InteractorIds(rs1), InteractorIds(rs2));
    }
  }

  /** Ids are compared with Python's `==`: a multidata row whose id is `True`
      interacts with an interaction naming `1`, and is kept. */
  lemma TrueIdMatchesOne()
    ensures KeptPositions([map[IdColumn := BoolCell(true)]], [IntCell(1)]) == [0]
  {
    var rows := [map[IdColumn := BoolCell(true)]];
    assert rows[..0] == [];
    assert PyEq([IntCell(1)][0], rows[0][IdColumn]);
  }
}
