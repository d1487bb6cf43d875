/** `find_max_feature` and `find_max_field`: the maximum of one column over the
    filled rows of a batch. */
module MaxScan {
  import opened Data

  /** Which column of an entry a scan reads. */
  datatype Column = Idx | Field

  function Key(e: Entry, c: Column): nat {
    match c
    case Idx => e.idx
    case Field => e.field
  }

  function Max(a: nat, b: nat): nat {
    if b > a then b else a
  }

  /** Reference maximum of a column over one row; 0 for an empty row. */
  function MaxOfEntries(row: Row, c: Column): nat {
    if |row| == 0 then 0 else Max(MaxOfEntries(row[..|row| - 1], c), Key(row[|row| - 1], c))
  }

  /** Reference maximum of a column over all entries of all rows; 0 when
      there are none. */
  function MaxOfRows(rows: seq<Row>, c: Column): nat {
    if |rows| == 0 then 0 else Max(MaxOfRows(rows[..|rows| - 1], c), MaxOfEntries(rows[|rows| - 1], c))
  }

  /** The row maximum bounds every key of the row and is one of them (or 0). */
  lemma {:induction false} MaxOfEntriesBounds(row: Row, c: Column)
    ensures forall j :: 0 <= j < |row| ==> Key(row[j], c) <= MaxOfEntries(row, c)
    ensures MaxOfEntries(row, c) == 0 || exists j :: 0 <= j < |row| && Key(row[j], c) == MaxOfEntries(row, c)
  {
    if |row| > 0 {
      var row' := row[..|row| - 1];
      MaxOfEntriesBounds(row', c);
      assert forall j :: 0 <= j < |row'| ==> row'[j] == row[j];
    }
  }

  /** The maximum bounds every key of the rows and is one of them (or 0). */
  lemma {:induction false} MaxOfRowsBounds(rows: seq<Row>, c: Column)
    ensures forall i, j :: 0 <= i < |rows| && 0 <= j < |rows[i]| ==> Key(rows[i][j], c) <= MaxOfRows(rows, c)
    ensures MaxOfRows(rows, c) == 0
         || exists i, j :: 0 <= i < |rows| && 0 <= j < |rows[i]| && Key(rows[i][j], c) == MaxOfRows(rows, c)
  {
    if |rows| > 0 {
      var rows' := rows[..|rows| - 1];
      MaxOfRowsBounds(rows', c);
      MaxOfEntriesBounds(rows[|rows| - 1], c);
      assert forall i :: 0 <= i < |rows'| ==> rows'[i] == rows[i];
      if MaxOfRows(rows, c) != 0 && MaxOfRows(rows, c) == MaxOfRows(rows', c) {
        var i, j :| 0 <= i < |rows'| && 0 <= j < |rows'[i]| && Key(rows'[i][j], c) == MaxOfRows(rows', c);
        assert rows[i] == rows'[i];
      }
    }
  }

  /** The maximum over a concatenation is the larger of the two maxima. */
  lemma {:induction false} MaxOfRowsAppend(a: seq<Row>, b: seq<Row>, c: Column)
    ensures MaxOfRows(a + b, c) == Max(MaxOfRows(a, c), MaxOfRows(b, c))
    decreases |b|
  {
    if |b| == 0 {
      assert a + b == a;
    } else {
      var b' := b[..|b| - 1];
      assert (a + b)[..|a + b| - 1] == a + b';
      MaxOfRowsAppend(a, b', c);
    }
  }

  /** Appending one row to a list of rows. */
  lemma MaxOfRowsSnoc(matrix: seq<Row>, i: nat, c: Column)
    requires i < |matrix|
    ensures MaxOfRows(matrix[..i + 1], c) == Max(MaxOfRows(matrix[..i], c), MaxOfEntries(matrix[i], c))
  {
    assert matrix[..i + 1][..i] == matrix[..i];
  }

  /** Appending one entry to a row. */
  lemma MaxOfEntriesSnoc(row: Row, j: nat, c: Column)
    requires j < |row|
    ensures MaxOfEntries(row[..j + 1], c) == Max(MaxOfEntries(row[..j], c), Key(row[j], c))
  {
    assert row[..j + 1][..j] == row[..j];
  }

  /** The reference maximum over a prefix of rows, stated on the rows themselves. */
  lemma MaxOfPrefix(matrix: seq<Row>, n: nat, c: Column, m: nat)
    requires n <= |matrix| && m == MaxOfRows(matrix[..n], c)
    ensures forall i, j :: 0 <= i < n && 0 <= j < |matrix[i]| ==> Key(matrix[i][j], c) <= m
    ensures m == 0 || exists i, j :: 0 <= i < n && 0 <= j < |matrix[i]| && Key(matrix[i][j], c) == m
  {
    var p := matrix[..n];
    MaxOfRowsBounds(p, c);
    assert forall i :: 0 <= i < n ==> p[i] == matrix[i];
  }

  /** The scan loop of `find_max_field` (and, read on the index column, the
      evident intent of `find_max_feature`): the maximum over the first
      `numSamples` rows of the batch buffer. */
  method FindMaxColumn(matrix: seq<Row>, numSamples: nat, c: Column) returns (res: nat)
    requires numSamples <= |matrix|
    ensures res == MaxOfRows(matrix[..numSamples], c)
    ensures forall i, j :: 0 <= i < numSamples && 0 <= j < |matrix[i]| ==> Key(matrix[i][j], c) <= res
    ensures res == 0 || exists i, j :: 0 <= i < numSamples && 0 <= j < |matrix[i]| && Key(matrix[i][j], c) == res
  {
    res := 0;
    var i := 0;
    while i < numSamples
      invariant i <= numSamples
      invariant res == MaxOfRows(matrix[..i], c)
    {
      var row := matrix[i];
      var j := 0;
      while j < |row|
        invariant j <= |row|
        invariant res == Max(MaxOfRows(matrix[..i], c), MaxOfEntries(row[..j], c))
      {
        MaxOfEntriesSnoc(row, j, c);
        if Key(row[j], c) > res {
          res := Key(row[j], c);
        }
        j := j + 1;
      }
      assert row[..j] == row;
      MaxOfRowsSnoc(matrix, i, c);
      i := i + 1;
    }
    MaxOfPrefix(matrix, numSamples, c, res);
  }

  // ---------------------------------------------------------------------
  // `find_max_feature` as written: it compares on `idx[j]` but assigns the
  // feature value `X[j]`, converted to the unsigned index type.
  // ---------------------------------------------------------------------

  /** Conversion of a feature value to `index_t`: truncation toward zero.
      A value of -1 or below, or one too large for `index_t`, is undefined
      behaviour in the source; a value in (-1, 0) truncates to 0. Every
      negative value maps to 0 here. */
  function TruncIndex(x: real): nat {
    if x < 0.0 then 0 else x.Floor
  }

  /** Entries of the rows in scan order. */
  function Flatten(rows: seq<Row>): seq<Entry> {
    if |rows| == 0 then [] else Flatten(rows[..|rows| - 1]) + rows[|rows| - 1]
  }

  /** The as-written loop over entries: compare the index with the running
      result, and on success replace the result by the truncated value. */
  function AsWrittenFold(es: seq<Entry>): nat {
    if |es| == 0 then 0
    else
      var r := AsWrittenFold(es[..|es| - 1]);
      if es[|es| - 1].idx > r then TruncIndex(es[|es| - 1].x) else r
  }

  /** The as-written result is never an index read from the data: it is 0 or
      the truncation of some feature value. */
  lemma {:induction false} AsWrittenIsAValue(es: seq<Entry>)
    ensures AsWrittenFold(es) == 0 || exists k :: 0 <= k < |es| && AsWrittenFold(es) == TruncIndex(es[k].x)
  {
    if |es| > 0 {
      var es' := es[..|es| - 1];
      AsWrittenIsAValue(es');
      if AsWrittenFold(es) != 0 && AsWrittenFold(es) == AsWrittenFold(es') {
        var k :| 0 <= k < |es'| && AsWrittenFold(es') == TruncIndex(es'[k].x);
        assert es[k] == es'[k];
      }
    }
  }

  /** Appending one row to the flattening. */
  lemma FlattenSnoc(matrix: seq<Row>, i: nat)
    requires i < |matrix|
    ensures Flatten(matrix[..i + 1]) == Flatten(matrix[..i]) + matrix[i]
  {
    assert matrix[..i + 1][..i] == matrix[..i];
  }

  /** One more entry of the current row. */
  lemma AsWrittenSnoc(done: seq<Entry>, row: Row, j: nat)
    requires j < |row|
    ensures AsWrittenFold(done + row[..j + 1])
         == (if row[j].idx > AsWrittenFold(done + row[..j]) then TruncIndex(row[j].x) else AsWrittenFold(done + row[..j]))
  {
    assert (done + row[..j + 1])[..|done| + j] == done + row[..j];
  }

  /** `find_max_feature` exactly as the source writes it. */
  method FindMaxFeatureAsWritten(matrix: seq<Row>, numSamples: nat) returns (res: nat)
    requires numSamples <= |matrix|
    ensures res == AsWrittenFold(Flatten(matrix[..numSamples]))
    ensures res == 0 || exists k :: 0 <= k < |Flatten(matrix[..numSamples])| && res == TruncIndex(Flatten(matrix[..numSamples])[k].x)
  {
    res := 0;
    var i := 0;
    while i < numSamples
      invariant i <= numSamples
      invariant res == AsWrittenFold(Flatten(matrix[..i]))
    {
      var row := matrix[i];
      var done := Flatten(matrix[..i]);
      var j := 0;
      assert done + row[..0] == done;
      while j < |row|
        invariant j <= |row|
        invariant res == AsWrittenFold(done + row[..j])
      {
        AsWrittenSnoc(done, row, j);
        if row[j].idx > res {
          res := TruncIndex(row[j].x);
        }
        j := j + 1;
      }
      assert row[..j] == row;
      FlattenSnoc(matrix, i);
      i := i + 1;
    }
    AsWrittenIsAValue(Flatten(matrix[..numSamples]));
  }

  predicate AllValuesOne(es: seq<Entry>) {
    forall k :: 0 <= k < |es| ==> es[k].x == 1.0
  }

  predicate SomePositiveIndex(es: seq<Entry>) {
    exists k :: 0 <= k < |es| && es[k].idx > 0
  }

  /** On binary data (every value 1.0, the common sparse encoding) the
      as-written scan yields 1 as soon as any index is positive, whatever the
      largest index is. */
  lemma {:induction false} AsWrittenOnBinaryData(es: seq<Entry>)
    requires AllValuesOne(es)
    ensures AsWrittenFold(es) == (if SomePositiveIndex(es) then 1 else 0)
  {
    if |es| > 0 {
      var es' := es[..|es| - 1];
      assert AllValuesOne(es') by {
        forall k | 0 <= k < |es'| ensures es'[k].x == 1.0 {
          assert es'[k] == es[k];
        }
      }
      AsWrittenOnBinaryData(es');
      if SomePositiveIndex(es') {
        var k :| 0 <= k < |es'| && es'[k].idx > 0;
        assert es[k] == es'[k];
      }
      if es[|es| - 1].idx == 0 && SomePositiveIndex(es) {
        var k :| 0 <= k < |es| && es[k].idx > 0;
        assert es'[k] == es[k];
      }
    }
  }

  /** Every entry of the rows appears in their flattening. */
  lemma {:induction false} FlattenContains(rows: seq<Row>, i: nat, j: nat)
    requires i < |rows| && j < |rows[i]|
    ensures exists k :: 0 <= k < |Flatten(rows)| && Flatten(rows)[k] == rows[i][j]
  {
    var rows' := rows[..|rows| - 1];
    if i == |rows| - 1 {
      assert Flatten(rows)[|Flatten(rows')| + j] == rows[i][j];
    } else {
      assert rows'[i] == rows[i];
      FlattenContains(rows', i, j);
      var k :| 0 <= k < |Flatten(rows')| && Flatten(rows')[k] == rows[i][j];
      assert Flatten(rows)[k] == rows[i][j];
    }
  }

  /** The discrepancy: on binary data whose largest index is at least 2, the
      as-written scan reports 1 while the largest index is larger. */
  lemma AsWrittenMissesMaxIndex(rows: seq<Row>)
    requires AllValuesOne(Flatten(rows))
    requires MaxOfRows(rows, Idx) >= 2
    ensures AsWrittenFold(Flatten(rows)) == 1 < MaxOfRows(rows, Idx)
  {
    MaxOfRowsBounds(rows, Idx);
    var i, j :| 0 <= i < |rows| && 0 <= j < |rows[i]| && Key(rows[i][j], Idx) == MaxOfRows(rows, Idx);
    FlattenContains(rows, i, j);
    AsWrittenOnBinaryData(Flatten(rows));
  }
}
