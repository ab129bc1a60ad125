/** The sequential data contracts of the beta table shuffler: the archive
    codec that carries selected rows of a record batch to another worker,
    the bucketing of edge and vertex rows into per-fragment offset lists, the
    ring order in which workers exchange schemas, the count of batches to
    receive, and the removal of empty batches from the result. */
module TableShuffler {
  import opened Common

  // ------------------------------------------------------------ archive words

  /** One unit of a grape archive. A fixed-width value (a count, a length or
      a column value) is one word; the bytes of a string are one word each. */
  datatype Word = Count(n: int) | Val(v: int) | Char(c: char)

  /** The column types the codec dispatches on: the six fixed-width numeric
      types, large strings, nulls and large lists of a numeric type. */
  datatype ColumnType = FixedType | StringType | NullType | ListType

  /** One value of a column. Numeric values are opaque to the shuffler. */
  datatype Cell = FixedCell(v: int) | StringCell(s: string) | NullCell | ListCell(vs: seq<int>)

  predicate HasType(c: Cell, t: ColumnType)
  {
    match t
    case FixedType => c.FixedCell?
    case StringType => c.StringCell?
    case NullType => c.NullCell?
    case ListType => c.ListCell?
  }

  predicate AllHaveType(cs: seq<Cell>, t: ColumnType)
  {
    forall i :: 0 <= i < |cs| ==> HasType(cs[i], t)
  }

  datatype Column = Column(ty: ColumnType, cells: seq<Cell>)

  /** A record batch: its row count and its columns. */
  datatype RowBatch = RowBatch(numRows: nat, columns: seq<Column>)

  /** Every column has the batch's row count and holds values of its type. */
  predicate WellFormed(b: RowBatch)
  {
    forall j :: 0 <= j < |b.columns| ==>
      |b.columns[j].cells| == b.numRows && AllHaveType(b.columns[j].cells, b.columns[j].ty)
  }

  function Types(cols: seq<Column>): (schema: seq<ColumnType>)
    ensures |schema| == |cols|
    ensures forall j :: 0 <= j < |cols| ==> schema[j] == cols[j].ty
  {
    if cols == [] then [] else [cols[0].ty] + Types(cols[1..])
  }

  function SchemaOf(b: RowBatch): seq<ColumnType>
  {
    Types(b.columns)
  }

  // ------------------------------------------------------------ row selection

  function Select(cells: seq<Cell>, offset: seq<nat>): (sel: seq<Cell>)
    requires forall i :: 0 <= i < |offset| ==> offset[i] < |cells|
  {
    seq(|offset|, i requires 0 <= i < |offset| => cells[offset[i]])
  }

  predicate OffsetsIn(offset: seq<nat>, numRows: nat)
  {
    forall i :: 0 <= i < |offset| ==> offset[i] < numRows
  }

  /** The items at the first `k` offsets. */
  function Picked(cells: seq<Cell>, offset: seq<nat>, k: nat): (sel: seq<Cell>)
    requires OffsetsIn(offset, |cells|) && k <= |offset|
    ensures |sel| == k
  {
    if k == 0 then [] else Picked(cells, offset, k - 1) + [cells[offset[k - 1]]]
  }

  lemma {:induction false} PickedAt(cells: seq<Cell>, offset: seq<nat>, k: nat)
    requires OffsetsIn(offset, |cells|) && k <= |offset|
    ensures forall i :: 0 <= i < k ==> Picked(cells, offset, k)[i] == cells[offset[i]]
  {
    if k > 0 {
      PickedAt(cells, offset, k - 1);
    }
  }

  lemma PickedAll(cells: seq<Cell>, offset: seq<nat>)
    requires OffsetsIn(offset, |cells|)
    ensures Picked(cells, offset, |offset|) == Select(cells, offset)
  {
    PickedAt(cells, offset, |offset|);
  }

  /** `SelectRows`: the batch made of the rows at `offset`, in offset order,
      with the input's schema. */
  function SelectRows(b: RowBatch, offset: seq<nat>): (r: RowBatch)
    requires WellFormed(b) && OffsetsIn(offset, b.numRows)
    ensures WellFormed(r) && r.numRows == |offset| && SchemaOf(r) == SchemaOf(b)
    ensures |r.columns| == |b.columns|
  {
    var r := RowBatch(|offset|, seq(|b.columns|, j requires 0 <= j < |b.columns| =>
      Column(b.columns[j].ty, Select(b.columns[j].cells, offset))));
    assert Types(r.columns) == Types(b.columns) by { TypesEqual(r.columns, b.columns); }
    r
  }

  /** Row `i` of the selection is row `offset[i]` of the input, in every
      column. */
  lemma SelectRowsPicks(b: RowBatch, offset: seq<nat>)
    requires WellFormed(b) && OffsetsIn(offset, b.numRows)
    ensures forall j, i :: 0 <= j < |b.columns| && 0 <= i < |offset| ==>
      SelectRows(b, offset).columns[j].cells[i] == b.columns[j].cells[offset[i]]
  {
  }

  /** The first `k` columns of the selection. */
  function SelectedPrefix(b: RowBatch, offset: seq<nat>, k: nat): (cols: seq<Column>)
    requires WellFormed(b) && OffsetsIn(offset, b.numRows) && k <= |b.columns|
    ensures |cols| == k
  {
    if k == 0 then []
    else SelectedPrefix(b, offset, k - 1) + [Column(b.columns[k - 1].ty, Select(b.columns[k - 1].cells, offset))]
  }

  /** The selection's columns are the input's columns, each cut down to the
      items at `offset`. */
  lemma SelectedColumns(b: RowBatch, offset: seq<nat>)
    requires WellFormed(b) && OffsetsIn(offset, b.numRows)
    ensures SelectedPrefix(b, offset, |b.columns|) == SelectRows(b, offset).columns
  {
    SelectedPrefixAt(b, offset, |b.columns|);
  }

  /** The count followed by every selected column is the encoding of the
      selection. */
  lemma SerializedRows(before: seq<Word>, b: RowBatch, offset: seq<nat>)
    requires WellFormed(b) && OffsetsIn(offset, b.numRows)
    ensures (before + [Count(|offset|)]) + EncodeColumns(SelectedPrefix(b, offset, |b.columns|))
         == before + Encode(SelectRows(b, offset))
  {
    SelectedColumns(b, offset);
    ConcatAssoc(before, [Count(|offset|)], EncodeColumns(SelectRows(b, offset).columns));
  }

  lemma {:induction false} SelectedPrefixAt(b: RowBatch, offset: seq<nat>, k: nat)
    requires WellFormed(b) && OffsetsIn(offset, b.numRows) && k <= |b.columns|
    ensures forall j :: 0 <= j < k ==>
      SelectedPrefix(b, offset, k)[j] == Column(b.columns[j].ty, Select(b.columns[j].cells, offset))
  {
    if k > 0 {
      SelectedPrefixAt(b, offset, k - 1);
    }
  }

  lemma {:induction false} TypesEqual(xs: seq<Column>, ys: seq<Column>)
    requires |xs| == |ys| && forall j :: 0 <= j < |xs| ==> xs[j].ty == ys[j].ty
    ensures Types(xs) == Types(ys)
  {
    if xs != [] {
      TypesEqual(xs[1..], ys[1..]);
    }
  }

  // ------------------------------------------------------------ encoding

  function Chars(s: string): (ws: seq<Word>)
  {
    seq(|s|, k requires 0 <= k < |s| => Char(s[k]))
  }

  function Vals(vs: seq<int>): (ws: seq<Word>)
  {
    seq(|vs|, k requires 0 <= k < |vs| => Val(vs[k]))
  }

  /** A string view goes out as its length followed by its bytes. */
  function EncodeString(s: string): seq<Word>
  {
    [Count(|s|)] + Chars(s)
  }

  /** The words one selected item contributes: a fixed value is one word, a
      string its length-prefixed bytes, a null nothing, a list its length
      followed by its values. */
  function EncodeCell(c: Cell): seq<Word>
  {
    match c
    case FixedCell(v) => [Val(v)]
    case StringCell(s) => EncodeString(s)
    case NullCell => []
    case ListCell(vs) => [Count(|vs|)] + Vals(vs)
  }

  function EncodeCells(cs: seq<Cell>): seq<Word>
  {
    if cs == [] then [] else EncodeCell(cs[0]) + EncodeCells(cs[1..])
  }

  function EncodeColumns(cols: seq<Column>): seq<Word>
  {
    if cols == [] then [] else EncodeCells(cols[0].cells) + EncodeColumns(cols[1..])
  }

  /** The archive layout of a batch: its row count, then each column's
      items, column after column. */
  function Encode(b: RowBatch): (ws: seq<Word>)
    ensures |ws| >= 1 && ws[0] == Count(b.numRows)
  {
    [Count(b.numRows)] + EncodeColumns(b.columns)
  }

  // ------------------------------------------------------------ decoding

  /** `xs` put in front of what a decoder produced; failure stays failure. */
  function Prefixed<T>(xs: seq<T>, d: Option<(seq<T>, seq<Word>)>): Option<(seq<T>, seq<Word>)>
  {
    if d.None? then None else Some((xs + d.value.0, d.value.1))
  }

  predicate AllChars(ws: seq<Word>)
  {
    forall k :: 0 <= k < |ws| ==> ws[k].Char?
  }

  function CharsOf(ws: seq<Word>): string
    requires AllChars(ws)
  {
    seq(|ws|, k requires 0 <= k < |ws| => ws[k].c)
  }

  /** A string view comes back as a length and then that many bytes. */
  function DecodeString(ws: seq<Word>): Option<(string, seq<Word>)>
  {
    if |ws| >= 1 && ws[0].Count? && 0 <= ws[0].n <= |ws| - 1 && AllChars(ws[1..1 + ws[0].n])
    then Some((CharsOf(ws[1..1 + ws[0].n]), ws[1 + ws[0].n..]))
    else None
  }

  /** `num` fixed-width values read one after the other. */
  function DecodeVals(num: nat, ws: seq<Word>): Option<(seq<int>, seq<Word>)>
    decreases num
  {
    if num == 0 then Some(([], ws))
    else if |ws| >= 1 && ws[0].Val? then Prefixed([ws[0].v], DecodeVals(num - 1, ws[1..]))
    else None
  }

  function DecodeCell(t: ColumnType, ws: seq<Word>): Option<(Cell, seq<Word>)>
  {
    match t
    case FixedType =>
      if |ws| >= 1 && ws[0].Val? then Some((FixedCell(ws[0].v), ws[1..])) else None
    case StringType =>
      var d := DecodeString(ws);
      if d.None? then None else Some((StringCell(d.value.0), d.value.1))
    case NullType => Some((NullCell, ws))
    case ListType =>
      if |ws| >= 1 && ws[0].Count? && ws[0].n >= 0 then
        var d := DecodeVals(ws[0].n, ws[1..]);
        if d.None? then None else Some((ListCell(d.value.0), d.value.1))
      else None
  }

  function DecodeCells(t: ColumnType, num: nat, ws: seq<Word>): Option<(seq<Cell>, seq<Word>)>
    decreases num
  {
    if num == 0 then Some(([], ws))
    else
      var d := DecodeCell(t, ws);
      if d.None? then None else Prefixed([d.value.0], DecodeCells(t, num - 1, d.value.1))
  }

  function DecodeColumns(schema: seq<ColumnType>, num: nat, ws: seq<Word>): (r: Option<(seq<Column>, seq<Word>)>)
    ensures r.Some? ==> Types(r.value.0) == schema
    decreases |schema|
  {
    if schema == [] then Some(([], ws))
    else
      var d := DecodeCells(schema[0], num, ws);
      if d.None? then None else Prefixed([Column(schema[0], d.value.0)], DecodeColumns(schema[1..], num, d.value.1))
  }

  /** `DeserializeSelectedRows` against a schema: the row count, then each
      column's items in schema order. `None` marks an archive too short or
      of the wrong shape. */
  function Decode(schema: seq<ColumnType>, ws: seq<Word>): (r: Option<(RowBatch, seq<Word>)>)
    ensures r.Some? ==> SchemaOf(r.value.0) == schema
    ensures r.Some? ==> |ws| >= 1 && ws[0] == Count(r.value.0.numRows)
  {
    if |ws| >= 1 && ws[0].Count? && ws[0].n >= 0 then
      var d := DecodeColumns(schema, ws[0].n, ws[1..]);
      if d.None? then None else Some((RowBatch(ws[0].n, d.value.0), d.value.1))
    else None
  }

  // ------------------------------------------------------------ round trips

  /** A string view reads back as the same bytes, and the words after it are
      left for the next read. */
  lemma StringRoundTrip(s: string, rest: seq<Word>)
    ensures DecodeString(EncodeString(s) + rest) == Some((s, rest))
  {
    var ws := EncodeString(s) + rest;
    assert ws[1..1 + |s|] == Chars(s);
    assert CharsOf(Chars(s)) == s;
    assert ws[1 + |s|..] == rest;
  }

  lemma {:induction false} ValsRoundTrip(vs: seq<int>, rest: seq<Word>)
    ensures DecodeVals(|vs|, Vals(vs) + rest) == Some((vs, rest))
    decreases |vs|
  {
    if vs == [] {
      assert Vals(vs) + rest == rest;
    } else {
      assert Vals(vs) == [Val(vs[0])] + Vals(vs[1..]);
      HeadTail(Val(vs[0]), Vals(vs[1..]), rest);
      ValsRoundTrip(vs[1..], rest);
      assert [vs[0]] + vs[1..] == vs;
    }
  }

  /** Each list row is its length and exactly that many values, and decodes
      to the same row. */
  lemma ListCellRoundTrip(vs: seq<int>, rest: seq<Word>)
    ensures DecodeCell(ListType, EncodeCell(ListCell(vs)) + rest) == Some((ListCell(vs), rest))
  {
    HeadTail(Count(|vs|), Vals(vs), rest);
    ValsRoundTrip(vs, rest);
  }

  lemma CellRoundTrip(c: Cell, t: ColumnType, rest: seq<Word>)
    requires HasType(c, t)
    ensures DecodeCell(t, EncodeCell(c) + rest) == Some((c, rest))
  {
    match c
    case FixedCell(v) =>
    case StringCell(s) => StringRoundTrip(s, rest);
    case NullCell => assert EncodeCell(c) + rest == rest;
    case ListCell(vs) => ListCellRoundTrip(vs, rest);
  }

  lemma {:induction false} CellsRoundTrip(t: ColumnType, cs: seq<Cell>, rest: seq<Word>)
    requires AllHaveType(cs, t)
    ensures DecodeCells(t, |cs|, EncodeCells(cs) + rest) == Some((cs, rest))
    decreases |cs|
  {
    if cs == [] {
      assert EncodeCells(cs) + rest == rest;
    } else {
      var tail := EncodeCells(cs[1..]) + rest;
      ConcatAssoc(EncodeCell(cs[0]), EncodeCells(cs[1..]), rest);
      CellRoundTrip(cs[0], t, tail);
      CellsRoundTrip(t, cs[1..], rest);
      assert [cs[0]] + cs[1..] == cs;
    }
  }

  lemma {:induction false} ColumnsRoundTrip(cols: seq<Column>, num: nat, rest: seq<Word>)
    requires forall j :: 0 <= j < |cols| ==> |cols[j].cells| == num && AllHaveType(cols[j].cells, cols[j].ty)
    ensures DecodeColumns(Types(cols), num, EncodeColumns(cols) + rest) == Some((cols, rest))
    decreases |cols|
  {
    if cols == [] {
      assert EncodeColumns(cols) + rest == rest;
    } else {
      var tail := EncodeColumns(cols[1..]) + rest;
      ConcatAssoc(EncodeCells(cols[0].cells), EncodeColumns(cols[1..]), rest);
      CellsRoundTrip(cols[0].ty, cols[0].cells, tail);
      ColumnsRoundTrip(cols[1..], num, rest);
      assert Types(cols)[1..] == Types(cols[1..]);
      assert [cols[0]] + cols[1..] == cols;
    }
  }

  /** A well-formed batch written to an archive reads back, against its own
      schema, as the same batch. */
  lemma RoundTrip(b: RowBatch, rest: seq<Word>)
    requires WellFormed(b)
    ensures Decode(SchemaOf(b), Encode(b) + rest) == Some((b, rest))
  {
    HeadTail(Count(b.numRows), EncodeColumns(b.columns), rest);
    ColumnsRoundTrip(b.columns, b.numRows, rest);
  }

  /** The rows a worker sends are the rows the receiver rebuilds: decoding
      what `SerializeSelectedRows` wrote gives `SelectRows` of the same
      offsets, which is also what the worker keeps for itself. */
  lemma SelectedRowsRoundTrip(b: RowBatch, offset: seq<nat>, rest: seq<Word>)
    requires WellFormed(b) && OffsetsIn(offset, b.numRows)
    ensures Decode(SchemaOf(b), Encode(SelectRows(b, offset)) + rest) == Some((SelectRows(b, offset), rest))
  {
    RoundTrip(SelectRows(b, offset), rest);
  }

  // ------------------------------------------------------------ list builder

  /** Arrow's large-list builder: the values appended to its value builder
      and the start offset of each slot opened so far. */
  datatype ListBuilder<T> = ListBuilder(values: seq<T>, offsets: seq<nat>)

  /** `Append(true)`: opens a slot whose start is the current number of values. */
  function AppendSlot<T>(b: ListBuilder<T>): (b': ListBuilder<T>)
    ensures b'.values == b.values && b'.offsets == b.offsets + [|b.values|]
  {
    b.(offsets := b.offsets + [|b.values|])
  }

  /** Appending to the value builder. */
  function AppendValues<T>(b: ListBuilder<T>, vs: seq<T>): (b': ListBuilder<T>)
    ensures b'.values == b.values + vs && b'.offsets == b.offsets
  {
    b.(values := b.values + vs)
  }

  /** The rows of a finished list array: the final offset closes the last
      slot, and row i is the values from its start to the next start. */
  function FinishList<T>(b: ListBuilder<T>): (rows: seq<seq<T>>)
    ensures |rows| == |b.offsets|
  {
    var offs := b.offsets + [|b.values|];
    seq(|b.offsets|, i requires 0 <= i < |b.offsets| =>
      if offs[i] <= offs[i + 1] <= |b.values| then b.values[offs[i]..offs[i + 1]] else [])
  }

  /** The list loops as written (reading list items, and selecting list
      items): each row's values are appended before `Append(true)` opens its
      slot, so every slot starts after its own values. */
  function BuildAsWritten<T>(rows: seq<seq<T>>): (b: ListBuilder<T>)
  {
    if rows == [] then ListBuilder([], [])
    else AppendSlot(AppendValues(BuildAsWritten(rows[..|rows| - 1]), rows[|rows| - 1]))
  }

  /** The intended order: open the slot, then append its values. */
  function BuildCorrected<T>(rows: seq<seq<T>>): (b: ListBuilder<T>)
  {
    if rows == [] then ListBuilder([], [])
    else AppendValues(AppendSlot(BuildCorrected(rows[..|rows| - 1])), rows[|rows| - 1])
  }

  /** Row i of a flattening sits between the lengths of the flattenings of
      the first i and the first i + 1 rows. */
  lemma FlattenSlice<T>(rows: seq<seq<T>>, i: nat)
    requires i < |rows|
    ensures |Flatten(rows[..i])| <= |Flatten(rows[..i + 1])| <= |Flatten(rows)|
    ensures Flatten(rows)[|Flatten(rows[..i])|..|Flatten(rows[..i + 1])|] == rows[i]
  {
    assert rows[..i + 1] == rows[..i] + [rows[i]];
    assert rows == rows[..i + 1] + rows[i + 1..];
    FlattenAppend(rows[..i], [rows[i]]);
    FlattenAppend(rows[..i + 1], rows[i + 1..]);
    assert Flatten([rows[i]]) == rows[i] by {
      assert [rows[i]][..0] == [];
    }
  }

  /** The state after the corrected loop: all values in row order, and slot
      i starting where row i's values begin. */
  lemma {:induction false} BuildCorrectedState<T>(rows: seq<seq<T>>)
    ensures BuildCorrected(rows).values == Flatten(rows)
    ensures |BuildCorrected(rows).offsets| == |rows|
    ensures forall i :: 0 <= i < |rows| ==> BuildCorrected(rows).offsets[i] == |Flatten(rows[..i])|
  {
    if rows != [] {
      var init := rows[..|rows| - 1];
      BuildCorrectedState(init);
      forall i | 0 <= i < |rows|
        ensures BuildCorrected(rows).offsets[i] == |Flatten(rows[..i])|
      {
        if i < |init| {
          assert init[..i] == rows[..i];
        } else {
          assert rows[..i] == init;
        }
      }
    }
  }

  /** The state after the loop as written: slot i starts where row i's
      values end. */
  lemma {:induction false} BuildAsWrittenState<T>(rows: seq<seq<T>>)
    ensures BuildAsWritten(rows).values == Flatten(rows)
    ensures |BuildAsWritten(rows).offsets| == |rows|
    ensures forall i :: 0 <= i < |rows| ==> BuildAsWritten(rows).offsets[i] == |Flatten(rows[..i + 1])|
  {
    if rows != [] {
      var init := rows[..|rows| - 1];
      BuildAsWrittenState(init);
      forall i | 0 <= i < |rows|
        ensures BuildAsWritten(rows).offsets[i] == |Flatten(rows[..i + 1])|
      {
        if i < |init| {
          assert init[..i + 1] == rows[..i + 1];
        } else {
          assert rows[..i + 1] == rows;
        }
      }
    }
  }

  /** Opening each slot before appending its values rebuilds the rows. */
  lemma ListBuiltRebuilds<T>(rows: seq<seq<T>>)
    ensures FinishList(BuildCorrected(rows)) == rows
  {
    BuildCorrectedState(rows);
    var b := BuildCorrected(rows);
    var r := FinishList(b);
    forall i | 0 <= i < |rows|
      ensures r[i] == rows[i]
    {
      FlattenSlice(rows, i);
      if i + 1 == |rows| {
        assert rows[..i + 1] == rows;
      }
    }
  }

  /** As written, every row comes back as the row after it, and the last
      row comes back empty: the rows are shifted up by one. */
  lemma ListBuiltAsWrittenShifts<T>(rows: seq<seq<T>>)
    ensures |FinishList(BuildAsWritten(rows))| == |rows|
    ensures forall i :: 0 <= i < |rows| - 1 ==> FinishList(BuildAsWritten(rows))[i] == rows[i + 1]
    ensures rows != [] ==> FinishList(BuildAsWritten(rows))[|rows| - 1] == []
  {
    BuildAsWrittenState(rows);
    var r := FinishList(BuildAsWritten(rows));
    forall i | 0 <= i < |rows| - 1
      ensures r[i] == rows[i + 1]
    {
      FlattenSlice(rows, i + 1);
      if i + 2 == |rows| {
        assert rows[..i + 2] == rows;
      }
    }
    if rows != [] {
      assert rows[..|rows|] == rows;
    }
  }

  /** Two list rows `[1]` and `[2, 3]` come back as `[2, 3]` and `[]`. */
  lemma ShiftedListExample()
    ensures FinishList(BuildAsWritten([[1], [2, 3]])) == [[2, 3], []]
    ensures FinishList(BuildCorrected([[1], [2, 3]])) == [[1], [2, 3]]
  {
    var rows: seq<seq<int>> := [[1], [2, 3]];
    ListBuiltAsWrittenShifts(rows);
    ListBuiltRebuilds(rows);
  }

  /** Null columns contribute no words to the archive, and reading `num`
      nulls back consumes none and yields exactly `num` nulls. */
  lemma {:induction false} NullColumnsAreFree(cs: seq<Cell>, num: nat, ws: seq<Word>)
    requires AllHaveType(cs, NullType)
    ensures EncodeCells(cs) == []
    ensures DecodeCells(NullType, num, ws) == Some((seq(num, _ => NullCell), ws))
    decreases |cs| + num
  {
    if cs != [] {
      NullColumnsAreFree(cs[1..], num, ws);
    } else if num > 0 {
      NullColumnsAreFree([], num - 1, ws);
      assert [NullCell] + seq(num - 1, _ => NullCell) == seq(num, _ => NullCell);
    }
  }

  lemma SelectedNullsAreFree(cells: seq<Cell>, offset: seq<nat>)
    requires AllHaveType(cells, NullType) && OffsetsIn(offset, |cells|)
    ensures EncodeCells(Select(cells, offset)) == []
  {
    NullColumnsAreFree(Select(cells, offset), 0, []);
  }

  lemma {:induction false} EncodeCellsSnoc(cs: seq<Cell>, c: Cell)
    ensures EncodeCells(cs + [c]) == EncodeCells(cs) + EncodeCell(c)
    decreases |cs|
  {
    if cs == [] {
      assert cs + [c] == [c];
      assert [c][1..] == [];
    } else {
      var t := cs + [c];
      assert t[1..] == cs[1..] + [c];
      EncodeCellsSnoc(cs[1..], c);
      ConcatAssoc(EncodeCell(cs[0]), EncodeCells(cs[1..]), EncodeCell(c));
    }
  }

  lemma {:induction false} EncodeColumnsSnoc(cols: seq<Column>, col: Column)
    ensures EncodeColumns(cols + [col]) == EncodeColumns(cols) + EncodeCells(col.cells)
    decreases |cols|
  {
    if cols == [] {
      assert cols + [col] == [col];
      assert [col][1..] == [];
    } else {
      var t := cols + [col];
      assert t[1..] == cols[1..] + [col];
      EncodeColumnsSnoc(cols[1..], col);
      ConcatAssoc(EncodeCells(cols[0].cells), EncodeColumns(cols[1..]), EncodeCells(col.cells));
    }
  }

  lemma AppendItem(start: seq<Word>, picked: seq<Cell>, c: Cell)
    ensures start + EncodeCells(picked + [c]) == (start + EncodeCells(picked)) + EncodeCell(c)
  {
    EncodeCellsSnoc(picked, c);
  }

  lemma AppendColumn(start: seq<Word>, done: seq<Column>, col: Column)
    ensures start + EncodeColumns(done + [col]) == (start + EncodeColumns(done)) + EncodeCells(col.cells)
  {
    EncodeColumnsSnoc(done, col);
  }

  lemma PrefixedNil<T>(d: Option<(seq<T>, seq<Word>)>)
    ensures Prefixed([], d) == d
  {
    if d.Some? {
      assert [] + d.value.0 == d.value.0;
    }
  }

  lemma PrefixedAppend<T>(xs: seq<T>, ys: seq<T>, d: Option<(seq<T>, seq<Word>)>)
    ensures Prefixed(xs, Prefixed(ys, d)) == Prefixed(xs + ys, d)
  {
    if d.Some? {
      assert xs + (ys + d.value.0) == (xs + ys) + d.value.0;
    }
  }

  // ------------------------------------------------------------ archives

  /** A grape `InArchive`: a buffer that is only ever appended to. */
  class InArchive {
    var words: seq<Word>

    constructor()
      ensures words == []
    {
      words := [];
    }

    method PutCount(n: nat)
      modifies this
      ensures words == old(words) + [Count(n)]
    {
      words := words + [Count(n)];
    }

    method PutValue(v: int)
      modifies this
      ensures words == old(words) + [Val(v)]
    {
      words := words + [Val(v)];
    }

    /** `operator<<` for a string view: the length, then the bytes. */
    method PutString(s: string)
      modifies this
      ensures words == old(words) + EncodeString(s)
    {
      words := words + [Count(|s|)];
      words := words + Chars(s);
    }

    /** `serialize_selected_typed_items` over a whole array: every value in
      order. */
    method PutValues(vs: seq<int>)
      modifies this
      ensures words == old(words) + Vals(vs)
    {
      var x := 0;
      while x < |vs|
        invariant 0 <= x <= |vs|
        invariant words == old(words) + Vals(vs[..x])
      {
        PutValue(vs[x]);
        assert Vals(vs[..x + 1]) == Vals(vs[..x]) + [Val(vs[x])];
        x := x + 1;
      }
      assert vs[..x] == vs;
    }

    /** One selected item of a non-null column, by the column's type. */
    method PutCell(c: Cell)
      requires !c.NullCell?
      modifies this
      ensures words == old(words) + EncodeCell(c)
    {
      match c
      case FixedCell(v) => PutValue(v);
      case StringCell(s) => PutString(s);
      case ListCell(vs) =>
        PutCount(|vs|);
        PutValues(vs);
    }

    /** The body of the loop of `SerializeSelectedItems`: one more item. */
    method PutItem(ghost start: seq<Word>, ghost picked: seq<Cell>, c: Cell)
      requires !c.NullCell? && words == start + EncodeCells(picked)
      modifies this
      ensures words == start + EncodeCells(picked + [c])
    {
      AppendItem(start, picked, c);
      PutCell(c);
    }

    /** `SerializeSelectedItems`: the items of `col` at `offset`, in offset
        order; a null column writes nothing. */
    method SerializeSelectedItems(col: Column, offset: seq<nat>)
      requires AllHaveType(col.cells, col.ty) && OffsetsIn(offset, |col.cells|)
      modifies this
      ensures words == old(words) + EncodeCells(Select(col.cells, offset))
    {
      if col.ty == NullType {
        SelectedNullsAreFree(col.cells, offset);
        return;
      }
      ghost var start := words;
      ghost var picked: seq<Cell> := [];
      var k := 0;
      while k < |offset|
        invariant 0 <= k <= |offset|
        invariant picked == Picked(col.cells, offset, k)
        invariant words == start + EncodeCells(picked)
      {
        var c := col.cells[offset[k]];
        assert HasType(c, col.ty);
        PutItem(start, picked, c);
        picked := picked + [c];
        k := k + 1;
      }
      PickedAll(col.cells, offset);
    }

    /** The body of the loop of `SerializeSelectedRows`: one more column. */
    method PutColumn(ghost start: seq<Word>, ghost done: seq<Column>, col: Column, offset: seq<nat>, ghost selected: Column)
      requires AllHaveType(col.cells, col.ty) && OffsetsIn(offset, |col.cells|)
      requires selected.cells == Select(col.cells, offset)
      requires words == start + EncodeColumns(done)
      modifies this
      ensures words == start + EncodeColumns(done + [selected])
    {
      AppendColumn(start, done, selected);
      SerializeSelectedItems(col, offset);
    }

    /** `SerializeSelectedRows`: the number of selected rows, then every
        column's selected items; the words appended are the encoding of
        `SelectRows(b, offset)`. */
    method SerializeSelectedRows(b: RowBatch, offset: seq<nat>)
      requires WellFormed(b) && OffsetsIn(offset, b.numRows)
      modifies this
      ensures words == old(words) + Encode(SelectRows(b, offset))
    {
      ghost var before := words;
      PutCount(|offset|);
      ghost var start := words;
      ghost var done: seq<Column> := [];
      var colId := 0;
      while colId != |b.columns|
        invariant 0 <= colId <= |b.columns|
        invariant done == SelectedPrefix(b, offset, colId)
        invariant words == start + EncodeColumns(done)
      {
        var col := b.columns[colId];
        assert |col.cells| == b.numRows && AllHaveType(col.cells, col.ty);
        PutColumn(start, done, col, offset, Column(col.ty, Select(col.cells, offset)));
        done := done + [Column(col.ty, Select(col.cells, offset))];
        colId := colId + 1;
      }
      SerializedRows(before, b, offset);
    }
  }

  /** A grape `OutArchive`: the part of a received buffer not yet read. The
      source reads without checking; here a read that finds the buffer too
      short, or a word of the wrong kind, fails with `None`. */
  class OutArchive {
    var rest: seq<Word>

    constructor(ws: seq<Word>)
      ensures rest == ws
    {
      rest := ws;
    }

    method GetCount() returns (n: Option<int>)
      modifies this
      ensures n.Some? <==> |old(rest)| >= 1 && old(rest)[0].Count?
      ensures n.Some? ==> n.value == old(rest)[0].n && rest == old(rest)[1..]
    {
      if |rest| >= 1 && rest[0].Count? {
        n := Some(rest[0].n);
        rest := rest[1..];
      } else {
        n := None;
      }
    }

    method GetValue() returns (v: Option<int>)
      modifies this
      ensures v.Some? <==> |old(rest)| >= 1 && old(rest)[0].Val?
      ensures v.Some? ==> v.value == old(rest)[0].v && rest == old(rest)[1..]
    {
      if |rest| >= 1 && rest[0].Val? {
        v := Some(rest[0].v);
        rest := rest[1..];
      } else {
        v := None;
      }
    }

    /** `operator>>` for a string view: a length, then that many bytes. */
    method GetString() returns (s: Option<string>)
      modifies this
      ensures var d := DecodeString(old(rest));
        (s.Some? <==> d.Some?) && (d.Some? ==> s.value == d.value.0 && rest == d.value.1)
    {
      var ws := rest;
      var length := GetCount();
      if length.None? || length.value < 0 || length.value > |rest| {
        s := None;
        return;
      }
      var n := length.value;
      assert ws[1..1 + n] == rest[..n];
      if !AllChars(rest[..n]) {
        s := None;
        return;
      }
      s := Some(CharsOf(rest[..n]));
      rest := rest[n..];
    }

    /** `deserialize_selected_typed_items`: `num` values, one per read. */
    method GetValues(num: nat) returns (vs: Option<seq<int>>)
      modifies this
      ensures var d := DecodeVals(num, old(rest));
        (vs.Some? <==> d.Some?) && (d.Some? ==> vs.value == d.value.0 && rest == d.value.1)
    {
      var got: seq<int> := [];
      var i := 0;
      PrefixedNil(DecodeVals(num, rest));
      while i != num
        invariant 0 <= i <= num
        invariant DecodeVals(num, old(rest)) == Prefixed(got, DecodeVals(num - i, rest))
      {
        var v := GetValue();
        if v.None? {
          return None;
        }
        PrefixedAppend(got, [v.value], DecodeVals(num - i - 1, rest));
        got := got + [v.value];
        i := i + 1;
      }
      assert got + [] == got;
      vs := Some(got);
    }

    /** One item of a non-null column, by the column's type. */
    method GetCell(t: ColumnType) returns (c: Option<Cell>)
      requires t != NullType
      modifies this
      ensures var d := DecodeCell(t, old(rest));
        (c.Some? <==> d.Some?) && (d.Some? ==> c.value == d.value.0 && rest == d.value.1)
    {
      match t
      case FixedType =>
        var v := GetValue();
        c := if v.Some? then Some(FixedCell(v.value)) else None;
      case StringType =>
        var s := GetString();
        c := if s.Some? then Some(StringCell(s.value)) else None;
      case ListType =>
        var length := GetCount();
        if length.None? || length.value < 0 {
          return None;
        }
        var vs := GetValues(length.value);
        c := if vs.Some? then Some(ListCell(vs.value)) else None;
    }

    /** `DeserializeSelectedItems`: `num` items of type `t`; a null column
        appends `num` nulls and reads nothing. */
    method DeserializeSelectedItems(t: ColumnType, num: nat) returns (cs: Option<seq<Cell>>)
      modifies this
      ensures var d := DecodeCells(t, num, old(rest));
        (cs.Some? <==> d.Some?) && (d.Some? ==> cs.value == d.value.0 && rest == d.value.1)
    {
      if t == NullType {
        NullColumnsAreFree([], num, rest);
        return Some(seq(num, _ => NullCell));
      }
      var got: seq<Cell> := [];
      var i := 0;
      PrefixedNil(DecodeCells(t, num, rest));
      while i != num
        invariant 0 <= i <= num
        invariant DecodeCells(t, num, old(rest)) == Prefixed(got, DecodeCells(t, num - i, rest))
      {
        var c := GetCell(t);
        if c.None? {
          return None;
        }
        PrefixedAppend(got, [c.value], DecodeCells(t, num - i - 1, rest));
        got := got + [c.value];
        i := i + 1;
      }
      assert got + [] == got;
      cs := Some(got);
    }

    /** `DeserializeSelectedRows`: the row count, then each column of the
        schema in order; the result is what `Decode` reads. */
    method DeserializeSelectedRows(schema: seq<ColumnType>) returns (b: Option<RowBatch>)
      modifies this
      ensures var d := Decode(schema, old(rest));
        (b.Some? <==> d.Some?) && (d.Some? ==> b.value == d.value.0 && rest == d.value.1)
    {
      var rowNum := GetCount();
      if rowNum.None? || rowNum.value < 0 {
        return None;
      }
      var num: nat := rowNum.value;
      var cols: seq<Column> := [];
      var colId := 0;
      assert schema[colId..] == schema;
      PrefixedNil(DecodeColumns(schema, num, rest));
      while colId != |schema|
        invariant 0 <= colId <= |schema|
        invariant DecodeColumns(schema, num, old(rest)[1..]) == Prefixed(cols, DecodeColumns(schema[colId..], num, rest))
      {
        assert schema[colId..][1..] == schema[colId + 1..];
        var cs := DeserializeSelectedItems(schema[colId], num);
        if cs.None? {
          return None;
        }
        var col := Column(schema[colId], cs.value);
        PrefixedAppend(cols, [col], DecodeColumns(schema[colId + 1..], num, rest));
        cols := cols + [col];
        colId := colId + 1;
      }
      assert cols + [] == cols;
      b := Some(RowBatch(num, cols));
    }
  }

  /** What the worker keeps of its own batches: for each outgoing batch, the
      rows its offset lists file under this worker's fragment. */
  function LocalSelections(out: seq<RowBatch>, offsetLists: seq<seq<seq<nat>>>, fid: nat): (r: seq<RowBatch>)
    requires |offsetLists| == |out|
    requires forall i :: 0 <= i < |out| ==>
      WellFormed(out[i]) && fid < |offsetLists[i]| && OffsetsIn(offsetLists[i][fid], out[i].numRows)
    ensures |r| == |out|
    ensures forall i :: 0 <= i < |out| ==>
      r[i] == SelectRows(out[i], offsetLists[i][fid]) && r[i].numRows == |offsetLists[i][fid]|
  {
    seq(|out|, i requires 0 <= i < |out| => SelectRows(out[i], offsetLists[i][fid]))
  }

  /** The tail of `ShuffleTableByOffsetLists`: after the received batches,
      the locally kept selection of every outgoing batch, in batch order. */
  method AppendLocalSelections(received: seq<RowBatch>, out: seq<RowBatch>,
                               offsetLists: seq<seq<seq<nat>>>, fid: nat)
    returns (batchesIn: seq<RowBatch>)
    requires |offsetLists| == |out|
    requires forall i :: 0 <= i < |out| ==>
      WellFormed(out[i]) && fid < |offsetLists[i]| && OffsetsIn(offsetLists[i][fid], out[i].numRows)
    ensures batchesIn == received + LocalSelections(out, offsetLists, fid)
  {
    batchesIn := received;
    var rb := 0;
    while rb != |out|
      invariant 0 <= rb <= |out|
      invariant batchesIn == received + LocalSelections(out, offsetLists, fid)[..rb]
    {
      var sel := SelectRows(out[rb], offsetLists[rb][fid]);
      assert LocalSelections(out, offsetLists, fid)[..rb + 1] == LocalSelections(out, offsetLists, fid)[..rb] + [sel];
      batchesIn := batchesIn + [sel];
      rb := rb + 1;
    }
    assert LocalSelections(out, offsetLists, fid)[..rb] == LocalSelections(out, offsetLists, fid);
  }

  // ------------------------------------------------------------ bucketing

  /** The rows of an edge batch filed under fragment `f`: those whose source
      or destination vertex lives there, in row order. */
  function EdgeRows(srcFids: seq<nat>, dstFids: seq<nat>, f: nat): (rows: seq<nat>)
    requires |srcFids| == |dstFids|
    ensures forall i :: 0 <= i < |rows| ==> rows[i] < |srcFids|
    ensures forall i, j :: 0 <= i < j < |rows| ==> rows[i] < rows[j]
  {
    var n := |srcFids|;
    if n == 0 then []
    else
      EdgeRows(srcFids[..n - 1], dstFids[..n - 1], f)
        + (if srcFids[n - 1] == f || dstFids[n - 1] == f then [n - 1] else [])
  }

  /** A row is in fragment `f`'s list exactly when its source or its
      destination fragment is `f`. */
  lemma {:induction false} EdgeRowsMembership(srcFids: seq<nat>, dstFids: seq<nat>, f: nat, r: nat)
    requires |srcFids| == |dstFids|
    ensures r in EdgeRows(srcFids, dstFids, f) <==> r < |srcFids| && (srcFids[r] == f || dstFids[r] == f)
    decreases |srcFids|
  {
    var n := |srcFids|;
    if n > 0 {
      EdgeRowsMembership(srcFids[..n - 1], dstFids[..n - 1], f, r);
    }
  }

  /** Offset lists of one edge batch: each row goes to its source's
      fragment, and also to its destination's when that differs. */
  method BucketEdgeRows(srcFids: seq<nat>, dstFids: seq<nat>, fnum: nat) returns (offsetList: seq<seq<nat>>)
    requires |srcFids| == |dstFids|
    requires forall r :: 0 <= r < |srcFids| ==> srcFids[r] < fnum && dstFids[r] < fnum
    ensures |offsetList| == fnum
    ensures forall f :: 0 <= f < fnum ==> offsetList[f] == EdgeRows(srcFids, dstFids, f)
  {
    offsetList := seq(fnum, _ => []);
    var rowId := 0;
    while rowId < |srcFids|
      invariant 0 <= rowId <= |srcFids|
      invariant |offsetList| == fnum
      invariant forall f :: 0 <= f < fnum ==> offsetList[f] == EdgeRows(srcFids[..rowId], dstFids[..rowId], f)
    {
      var srcFid, dstFid := srcFids[rowId], dstFids[rowId];
      assert srcFids[..rowId + 1][..rowId] == srcFids[..rowId];
      assert dstFids[..rowId + 1][..rowId] == dstFids[..rowId];
      offsetList := offsetList[srcFid := offsetList[srcFid] + [rowId]];
      if srcFid != dstFid {
        offsetList := offsetList[dstFid := offsetList[dstFid] + [rowId]];
      }
      rowId := rowId + 1;
    }
    assert srcFids[..rowId] == srcFids && dstFids[..rowId] == dstFids;
  }

  /** The rows of a vertex batch filed under fragment `f`, in row order. */
  function VertexRows(fids: seq<nat>, f: nat): (rows: seq<nat>)
    ensures forall i :: 0 <= i < |rows| ==> rows[i] < |fids|
    ensures forall i, j :: 0 <= i < j < |rows| ==> rows[i] < rows[j]
  {
    var n := |fids|;
    if n == 0 then [] else VertexRows(fids[..n - 1], f) + (if fids[n - 1] == f then [n - 1] else [])
  }

  /** Every vertex row is in exactly one list: the one of its partition. */
  lemma {:induction false} VertexRowsMembership(fids: seq<nat>, f: nat, r: nat)
    ensures r in VertexRows(fids, f) <==> r < |fids| && fids[r] == f
    decreases |fids|
  {
    var n := |fids|;
    if n > 0 {
      VertexRowsMembership(fids[..n - 1], f, r);
    }
  }

  /** Offset lists of one vertex batch: each row goes to the fragment the
      partitioner assigns its id to. */
  method BucketVertexRows(fids: seq<nat>, fnum: nat) returns (offsetList: seq<seq<nat>>)
    requires forall r :: 0 <= r < |fids| ==> fids[r] < fnum
    ensures |offsetList| == fnum
    ensures forall f :: 0 <= f < fnum ==> offsetList[f] == VertexRows(fids, f)
  {
    offsetList := seq(fnum, _ => []);
    var rowId := 0;
    while rowId < |fids|
      invariant 0 <= rowId <= |fids|
      invariant |offsetList| == fnum
      invariant forall f :: 0 <= f < fnum ==> offsetList[f] == VertexRows(fids[..rowId], f)
    {
      var fid := fids[rowId];
      assert fids[..rowId + 1][..rowId] == fids[..rowId];
      offsetList := offsetList[fid := offsetList[fid] + [rowId]];
      rowId := rowId + 1;
    }
    assert fids[..rowId] == fids;
  }

  // ------------------------------------------------------------ ring order

  /** The worker sent to at step `i` of the schema exchange. */
  function SendPeer(workerId: nat, workerNum: nat, i: nat): (p: nat)
    requires workerNum > 0
    ensures p < workerNum
  {
    (workerId + i) % workerNum
  }

  /** The worker received from at step `i`. */
  function RecvPeer(workerId: nat, workerNum: nat, i: nat): (p: nat)
    requires workerNum > 0 && i <= workerNum
    ensures p < workerNum
  {
    (workerId + workerNum - i) % workerNum
  }

  lemma ModOnce(a: int, n: int)
    requires n > 0 && 0 <= a < 2 * n
    ensures a % n == if a < n then a else a - n
  {
    if a >= n {
      assert a == 1 * n + (a - n);
    }
  }

  /** Within one turn round the ring, the send step is `workerId + i`
      wrapped once. */
  lemma SendPeerWraps(workerId: nat, workerNum: nat, i: nat)
    requires workerId < workerNum && 1 <= i < workerNum
    ensures SendPeer(workerId, workerNum, i) == if workerId + i < workerNum then workerId + i else workerId + i - workerNum
  {
    ModOnce(workerId + i, workerNum);
  }

  /** No step of the send loop targets the sender itself, and no two steps
      target the same worker. */
  lemma SendOrderDistinct(workerId: nat, workerNum: nat, i: nat, k: nat)
    requires workerId < workerNum && 1 <= i < workerNum && 1 <= k < workerNum
    ensures SendPeer(workerId, workerNum, i) != workerId
    ensures SendPeer(workerId, workerNum, i) == SendPeer(workerId, workerNum, k) ==> i == k
  {
    SendPeerWraps(workerId, workerNum, i);
    SendPeerWraps(workerId, workerNum, k);
  }

  /** The step at which worker `j` is sent to. */
  function SendStep(workerId: nat, workerNum: nat, j: nat): nat
    requires workerNum > 0
  {
    (j + workerNum - workerId) % workerNum
  }

  /** Every other worker is sent to, at step `SendStep`. */
  lemma SendOrderReachesAll(workerId: nat, workerNum: nat, j: nat)
    requires workerId < workerNum && j < workerNum && j != workerId
    ensures 1 <= SendStep(workerId, workerNum, j) < workerNum
    ensures SendPeer(workerId, workerNum, SendStep(workerId, workerNum, j)) == j
  {
    ModOnce(j + workerNum - workerId, workerNum);
    SendPeerWraps(workerId, workerNum, SendStep(workerId, workerNum, j));
  }

  /** The receive order mirrors the send order: the worker reached at step
      `i` receives, at its own step `i`, from the sender. */
  lemma RecvMirrorsSend(workerId: nat, workerNum: nat, i: nat)
    requires workerId < workerNum && 1 <= i < workerNum
    ensures SendPeer(workerId, workerNum, i) < workerNum
    ensures RecvPeer(SendPeer(workerId, workerNum, i), workerNum, i) == workerId
    ensures SendPeer(RecvPeer(workerId, workerNum, i), workerNum, i) == workerId
  {
    ModOnce(workerId + i, workerNum);
    var d := SendPeer(workerId, workerNum, i);
    ModOnce(d + workerNum - i, workerNum);
    ModOnce(workerId + workerNum - i, workerNum);
    var s := RecvPeer(workerId, workerNum, i);
    ModOnce(s + i, workerNum);
  }

  // ------------------------------------------------------------ batch counts

  /** `record_batches_to_recv`: the all-reduced total of batches sent minus
      this worker's own, which is what every other worker sends it. */
  function BatchesToRecv(sent: seq<nat>, workerId: nat): (r: int)
    requires workerId < |sent|
    ensures r == Sum(sent[..workerId]) + Sum(sent[workerId + 1..])
  {
    assert sent == sent[..workerId] + ([sent[workerId]] + sent[workerId + 1..]);
    SumAppend(sent[..workerId], [sent[workerId]] + sent[workerId + 1..]);
    SumAppend([sent[workerId]], sent[workerId + 1..]);
    assert Sum([sent[workerId]]) == Sum([]) + sent[workerId];
    Sum(sent) - sent[workerId]
  }

  // ------------------------------------------------------------ empty batches

  /** The batches that have rows, in order. */
  function NonEmpty(bs: seq<RowBatch>): (r: seq<RowBatch>)
    ensures |r| <= |bs|
    ensures forall i :: 0 <= i < |r| ==> r[i].numRows > 0
  {
    if bs == [] then []
    else NonEmpty(bs[..|bs| - 1]) + (if bs[|bs| - 1].numRows == 0 then [] else [bs[|bs| - 1]])
  }

  /** After the erase, no batch is empty, and every non-empty batch is kept. */
  lemma {:induction false} NonEmptyMembership(bs: seq<RowBatch>, b: RowBatch)
    ensures b in NonEmpty(bs) <==> b in bs && b.numRows > 0
  {
    if bs != [] {
      NonEmptyMembership(bs[..|bs| - 1], b);
      assert bs == bs[..|bs| - 1] + [bs[|bs| - 1]];
    }
  }

  /** The erase–remove of batches with no rows, kept in order. */
  method RemoveEmptyBatches(batchesIn: seq<RowBatch>) returns (kept: seq<RowBatch>)
    ensures kept == NonEmpty(batchesIn)
  {
    kept := [];
    var i := 0;
    while i < |batchesIn|
      invariant 0 <= i <= |batchesIn|
      invariant kept == NonEmpty(batchesIn[..i])
    {
      assert batchesIn[..i + 1][..i] == batchesIn[..i];
      if batchesIn[i].numRows != 0 {
        kept := kept + [batchesIn[i]];
      }
      i := i + 1;
    }
    assert batchesIn[..i] == batchesIn;
  }

  /** A shuffled table: its schema and the batches its rows come from. */
  datatype ShuffledTable = ShuffledTable(schema: seq<ColumnType>, batches: seq<RowBatch>)

  /** The table a shuffle returns: the non-empty received batches under the
      input's schema, or an empty table with that schema when none is left. */
  function ShuffleResult(schema: seq<ColumnType>, batchesIn: seq<RowBatch>): (t: ShuffledTable)
    ensures t.schema == schema
    ensures forall b :: b in t.batches <==> b in batchesIn && b.numRows > 0
  {
    forall b ensures b in NonEmpty(batchesIn) <==> b in batchesIn && b.numRows > 0 {
      NonEmptyMembership(batchesIn, b);
    }
    ShuffledTable(schema, NonEmpty(batchesIn))
  }

  /** When every received batch is empty the shuffle returns an empty table,
      and only then. */
  lemma AllEmptyGivesEmptyTable(schema: seq<ColumnType>, batchesIn: seq<RowBatch>)
    ensures (forall b :: b in batchesIn ==> b.numRows == 0) <==> ShuffleResult(schema, batchesIn).batches == []
  {
    var t := ShuffleResult(schema, batchesIn);
    if t.batches != [] {
      assert t.batches[0] in t.batches;
    }
  }
}
