/**
 * The input table shared by the analyzer and the classifier: one row per
 * laboratory report, with its origin label (the `origem` column) and the
 * parameter cells extracted from it. Python's insertion-ordered dicts of
 * results are modelled as sequences of (key, value) pairs.
 */
module Table {
  import opened Seqs

  datatype Option<T> = None | Some(value: T)

  /** The two values of the `origem` column. */
  datatype Origin = Mineradora | Distribuidora

  /** One report. A cell that is absent or NaN reads as None. */
  datatype Row = Row(origin: Origin, cells: map<string, Option<real>>)

  /** Column names of a data frame are distinct. */
  type ColumnNames = s: seq<string> | NoDuplicates(s)

  /** A data frame: its column names in order (normally including `origem`) and its rows. */
  datatype Frame = Frame(columns: ColumnNames, rows: seq<Row>)

  function Cell(r: Row, col: string): Option<real> {
    if col in r.cells then r.cells[col] else None
  }

  /** Whether row `r` contributes a value of `col` to group `o`. */
  predicate Contributes(r: Row, o: Origin, col: string) {
    r.origin == o && Cell(r, col).Some?
  }

  /**
   * `df[df['origem'] == o][col].dropna()`: the present values of `col` in the
   * rows of group `o`, in row order.
   */
  function Sample(rows: seq<Row>, o: Origin, col: string): seq<real> {
    if rows == [] then []
    else
      var rest := Sample(rows[1..], o, col);
      if Contributes(rows[0], o, col) then [Cell(rows[0], col).value] + rest else rest
  }

  /**
   * `idx` lists, increasing, exactly the positions of the rows that
   * contribute to group `o`, and `sample[k]` is the cell of row `idx[k]`.
   */
  ghost predicate Positions(idx: seq<int>, rows: seq<Row>, o: Origin, col: string, sample: seq<real>) {
    && |idx| == |sample|
    && (forall k, l :: 0 <= k < l < |idx| ==> idx[k] < idx[l])
    && (forall k :: 0 <= k < |idx| ==>
          0 <= idx[k] < |rows| && Contributes(rows[idx[k]], o, col) && sample[k] == Cell(rows[idx[k]], col).value)
    && (forall i :: i in idx <==> 0 <= i < |rows| && Contributes(rows[i], o, col))
  }

  /** The sample holds one value per contributing row, in row order: `dropna` keeps count, order and repeats. */
  lemma {:induction false} SampleValues(rows: seq<Row>, o: Origin, col: string) returns (idx: seq<int>)
    ensures |Sample(rows, o, col)| <= |rows|
    ensures Positions(idx, rows, o, col, Sample(rows, o, col))
  {
    if rows == [] {
      idx := [];
    } else {
      var idx0 := SampleValues(rows[1..], o, col);
      var sample, tail := Sample(rows, o, col), Sample(rows[1..], o, col);
      var shifted := ShiftPositions(rows, o, col, idx0, tail);
      if Contributes(rows[0], o, col) {
        assert sample == [Cell(rows[0], col).value] + tail;
        idx := ConsPositions(rows, o, col, shifted, tail);
      } else {
        idx := shifted;
        assert sample == tail;
      }
    }
  }

  /** A contributing first row puts position 0 and its value in front. */
  lemma ConsPositions(rows: seq<Row>, o: Origin, col: string, shifted: seq<int>, tail: seq<real>) returns (idx: seq<int>)
    requires |rows| > 0 && Contributes(rows[0], o, col) && |shifted| == |tail|
    requires forall k, l :: 0 <= k < l < |shifted| ==> shifted[k] < shifted[l]
    requires forall k :: 0 <= k < |shifted| ==>
      1 <= shifted[k] < |rows| && Contributes(rows[shifted[k]], o, col) && tail[k] == Cell(rows[shifted[k]], col).value
    requires forall i :: i in shifted <==> 1 <= i < |rows| && Contributes(rows[i], o, col)
    ensures Positions(idx, rows, o, col, [Cell(rows[0], col).value] + tail)
  {
    idx := [0] + shifted;
    var sample := [Cell(rows[0], col).value] + tail;
    forall k | 1 <= k < |idx|
      ensures 0 <= idx[k] < |rows| && Contributes(rows[idx[k]], o, col) && sample[k] == Cell(rows[idx[k]], col).value
    {
      assert idx[k] == shifted[k - 1] && sample[k] == tail[k - 1];
    }
  }

  /** The positions in the tail, moved up by one, are the contributing positions of `rows` after the first. */
  lemma ShiftPositions(rows: seq<Row>, o: Origin, col: string, idx0: seq<int>, tail: seq<real>) returns (shifted: seq<int>)
    requires |rows| > 0 && Positions(idx0, rows[1..], o, col, tail)
    ensures |shifted| == |tail|
    ensures forall k, l :: 0 <= k < l < |shifted| ==> shifted[k] < shifted[l]
    ensures forall k :: 0 <= k < |shifted| ==>
      1 <= shifted[k] < |rows| && Contributes(rows[shifted[k]], o, col) && tail[k] == Cell(rows[shifted[k]], col).value
    ensures forall i :: i in shifted <==> 1 <= i < |rows| && Contributes(rows[i], o, col)
  {
    var rest := rows[1..];
    shifted := Shifted(idx0);
    forall k | 0 <= k < |shifted|
      ensures 1 <= shifted[k] < |rows| && Contributes(rows[shifted[k]], o, col) && tail[k] == Cell(rows[shifted[k]], col).value
    {
      assert rows[shifted[k]] == rest[idx0[k]];
    }
    forall i ensures i in shifted <==> 1 <= i < |rows| && Contributes(rows[i], o, col) {
      if 1 <= i < |rows| {
        assert rows[i] == rest[i - 1];
      }
    }
  }

  /** The sample holds the value of every contributing row, and nothing else. */
  lemma SampleMembers(rows: seq<Row>, o: Origin, col: string)
    ensures forall i :: 0 <= i < |rows| && Contributes(rows[i], o, col) ==> Cell(rows[i], col).value in Sample(rows, o, col)
    ensures forall v :: v in Sample(rows, o, col) ==>
      exists i :: 0 <= i < |rows| && Contributes(rows[i], o, col) && Cell(rows[i], col).value == v
  {
    var s := Sample(rows, o, col);
    var idx := SampleValues(rows, o, col);
    forall i | 0 <= i < |rows| && Contributes(rows[i], o, col) ensures Cell(rows[i], col).value in s {
      assert i in idx;
      var k :| 0 <= k < |idx| && idx[k] == i;
      assert s[k] == Cell(rows[i], col).value;
    }
    forall v | v in s
      ensures exists i :: 0 <= i < |rows| && Contributes(rows[i], o, col) && Cell(rows[i], col).value == v
    {
      var k :| 0 <= k < |s| && s[k] == v;
      assert idx[k] in idx;
    }
  }

  /** The keys of an ordered dictionary, in insertion order. */
  function Keys<V>(entries: seq<(string, V)>): (ks: seq<string>)
    ensures |ks| == |entries|
    ensures forall i :: 0 <= i < |entries| ==> ks[i] == entries[i].0
  {
    if entries == [] then [] else [entries[0].0] + Keys(entries[1..])
  }

  /** Appending one entry appends one key. */
  lemma KeysAppend<V>(entries: seq<(string, V)>, k: string, v: V)
    ensures Keys(entries + [(k, v)]) == Keys(entries) + [k]
  {
  }

  /**
   * The ordered dictionary a loop over `keys` builds when it stores `f(k)`
   * for every key where that is present, in key order.
   */
  function Collect<V>(keys: seq<string>, f: string -> Option<V>): seq<(string, V)>
    decreases |keys|
  {
    if keys == [] then []
    else
      var init, k := Collect(keys[..|keys| - 1], f), keys[|keys| - 1];
      match f(k)
      case None => init
      case Some(v) => init + [(k, v)]
  }

  /** The keys of the dictionary keep the order of `keys`. */
  lemma {:induction false} CollectOrder<V>(keys: seq<string>, f: string -> Option<V>) returns (idx: seq<int>)
    ensures Embedding(idx, Keys(Collect(keys, f)), keys)
    decreases |keys|
  {
    if keys == [] {
      idx := [];
    } else {
      var n := |keys|;
      var init := keys[..n - 1];
      var idx0 := CollectOrder(init, f);
      EmbeddingInExtension(idx0, Keys(Collect(init, f)), init, [keys[n - 1]]);
      assert init + [keys[n - 1]] == keys;
      match f(keys[n - 1])
      case None =>
        idx := idx0;
      case Some(v) =>
        KeysAppend(Collect(init, f), keys[n - 1], v);
        EmbeddingAppend(idx0, Keys(Collect(init, f)), keys, n - 1);
        idx := idx0 + [n - 1];
    }
  }

  /** A key is in the dictionary exactly when it is among `keys` and `f` gives it a value. */
  lemma {:induction false} CollectKeys<V>(keys: seq<string>, f: string -> Option<V>)
    ensures forall p :: p in Keys(Collect(keys, f)) <==> p in keys && f(p).Some?
    decreases |keys|
  {
    if keys != [] {
      var n := |keys|;
      var init := keys[..n - 1];
      CollectKeys(init, f);
      assert init + [keys[n - 1]] == keys;
      match f(keys[n - 1])
      case None =>
      case Some(v) =>
        KeysAppend(Collect(init, f), keys[n - 1], v);
    }
  }

  /** Every stored value is the one `f` gives its key. */
  lemma {:induction false} CollectValues<V>(keys: seq<string>, f: string -> Option<V>)
    ensures forall i :: 0 <= i < |Collect(keys, f)| ==> f(Collect(keys, f)[i].0) == Some(Collect(keys, f)[i].1)
    decreases |keys|
  {
    if keys != [] {
      CollectValues(keys[..|keys| - 1], f);
    }
  }
}
