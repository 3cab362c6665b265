/** The rolling walk of `/detailed_analysis`: rows sorted by date, one window
    ending at each row, windows with a missing value skipped, and each kept
    coefficient stamped with the date of its window's last row. */
module Rolling {
  import opened Common
  import opened Seqs
  import opened Dataframe

  /** `rolling(window=30)`. */
  const WindowSize: nat := 30

  predicate SortedByDate(rows: seq<Row>) {
    forall i, j :: 0 <= i < j < |rows| ==> rows[i].date <= rows[j].date
  }

  /** Puts `x` into a date-sorted list, before the rows of the same date. */
  function Insert(x: Row, s: seq<Row>): (r: seq<Row>)
    requires SortedByDate(s)
    ensures |r| == |s| + 1
    ensures SortedByDate(r)
    ensures multiset(r) == multiset(s) + multiset{x}
    ensures r[0] == x || (s != [] && r[0] == s[0])
  {
    if s == [] || x.date <= s[0].date then [x] + s
    else
      var rest := Insert(x, s[1..]);
      assert s == [s[0]] + s[1..];
      [s[0]] + rest
  }

  /** `df.sort_values('Date')`: the same rows, in date order. */
  function SortByDate(rows: seq<Row>): (sorted: seq<Row>)
    ensures |sorted| == |rows|
    ensures SortedByDate(sorted)
    ensures multiset(sorted) == multiset(rows)
  {
    if rows == [] then []
    else
      assert rows == [rows[0]] + rows[1..];
      Insert(rows[0], SortByDate(rows[1..]))
  }

  /** The window ending at row k: that row and up to 29 rows before it. */
  function Window(rows: seq<Row>, k: nat): (w: seq<Row>)
    requires k < |rows|
    ensures |w| == if k + 1 < WindowSize then k + 1 else WindowSize
    ensures w[|w| - 1] == rows[k]
    ensures forall i :: 0 <= i < |w| ==> w[i] == rows[k + 1 - |w| + i]
  {
    rows[if k + 1 < WindowSize then 0 else k + 1 - WindowSize .. k + 1]
  }

  /** Neither `window[var1]` nor `window[var2]` has a missing value. */
  predicate Complete(w: seq<Row>, v1: string, v2: string) {
    w == [] || (!Missing(w[0], v1) && !Missing(w[0], v2) && Complete(w[1..], v1, v2))
  }

  /** The window ending at row j is complete. */
  predicate CompleteAt(rows: seq<Row>, v1: string, v2: string, j: nat)
    requires j < |rows|
  {
    Complete(Window(rows, j), v1, v2)
  }

  /** `{"Date": window.index[-1], "Rolling_Correlation": corr_value}`. */
  datatype Record = Record(date: Date, value: Coeff)

  /** The record produced by the window ending at row k. */
  function RecordAt(rows: seq<Row>, v1: string, v2: string, corrMethod: string,
                    corr: Coefficient, k: nat): (rec: Record)
    requires k < |rows|
    ensures rec.date == Window(rows, k)[|Window(rows, k)| - 1].date
  {
    Record(rows[k].date, corr(Window(rows, k), corrMethod, v1, v2))
  }

  /** `rolling_corr` after the windows ending at rows 0 .. k - 1. */
  function Walk(rows: seq<Row>, v1: string, v2: string, corrMethod: string,
                corr: Coefficient, k: nat): (recs: seq<Record>)
    requires k <= |rows|
    ensures |recs| <= k
  {
    if k == 0 then []
    else
      Walk(rows, v1, v2, corrMethod, corr, k - 1) +
        (if CompleteAt(rows, v1, v2, k - 1) then [RecordAt(rows, v1, v2, corrMethod, corr, k - 1)] else [])
  }

  /** The rows, below k, whose window is complete, in row order. */
  function CompleteEnds(rows: seq<Row>, v1: string, v2: string, k: nat): (ends: seq<nat>)
    requires k <= |rows|
    ensures |ends| <= k
    ensures forall z :: 0 <= z < |ends| ==> ends[z] < k
  {
    if k == 0 then []
    else CompleteEnds(rows, v1, v2, k - 1) + (if CompleteAt(rows, v1, v2, k - 1) then [k - 1] else [])
  }

  /** Every row `CompleteEnds` lists has a complete window. */
  lemma {:induction false} CompleteEndsSound(rows: seq<Row>, v1: string, v2: string, k: nat)
    requires k <= |rows|
    ensures forall z :: 0 <= z < |CompleteEnds(rows, v1, v2, k)| ==>
              CompleteAt(rows, v1, v2, CompleteEnds(rows, v1, v2, k)[z])
  {
    if k > 0 {
      CompleteEndsSound(rows, v1, v2, k - 1);
      var ends0, ends := CompleteEnds(rows, v1, v2, k - 1), CompleteEnds(rows, v1, v2, k);
      var last := CompleteAt(rows, v1, v2, k - 1);
      assert ends == ends0 + (if last then [k - 1] else []);
      forall z | 0 <= z < |ends|
        ensures CompleteAt(rows, v1, v2, ends[z])
      {
        if z < |ends0| {
          assert ends[z] == ends0[z];
        } else {
          assert last && ends[z] == k - 1;
        }
      }
    }
  }

  /** `CompleteEnds` lists its rows in increasing order, each once. */
  lemma {:induction false} CompleteEndsIncreasing(rows: seq<Row>, v1: string, v2: string, k: nat)
    requires k <= |rows|
    ensures forall z1, z2 :: 0 <= z1 < z2 < |CompleteEnds(rows, v1, v2, k)| ==>
              CompleteEnds(rows, v1, v2, k)[z1] < CompleteEnds(rows, v1, v2, k)[z2]
  {
    if k > 0 {
      CompleteEndsIncreasing(rows, v1, v2, k - 1);
      var ends0, ends := CompleteEnds(rows, v1, v2, k - 1), CompleteEnds(rows, v1, v2, k);
      assert ends == ends0 + (if CompleteAt(rows, v1, v2, k - 1) then [k - 1] else []);
      forall z1, z2 | 0 <= z1 < z2 < |ends|
        ensures ends[z1] < ends[z2]
      {
        assert ends[z1] == ends0[z1];
        if z2 < |ends0| {
          assert ends[z2] == ends0[z2];
        }
      }
    }
  }

  /** Every row below k whose window is complete is listed. */
  lemma {:induction false} CompleteEndsComplete(rows: seq<Row>, v1: string, v2: string, k: nat)
    requires k <= |rows|
    ensures forall j :: 0 <= j < k && CompleteAt(rows, v1, v2, j) ==> j in CompleteEnds(rows, v1, v2, k)
  {
    if k > 0 {
      CompleteEndsComplete(rows, v1, v2, k - 1);
      var ends0, ends := CompleteEnds(rows, v1, v2, k - 1), CompleteEnds(rows, v1, v2, k);
      assert ends == ends0 + (if CompleteAt(rows, v1, v2, k - 1) then [k - 1] else []);
      forall j | 0 <= j < k && CompleteAt(rows, v1, v2, j)
        ensures j in ends
      {
        if j < k - 1 {
          var w :| 0 <= w < |ends0| && ends0[w] == j;
          assert ends[w] == j;
        } else {
          assert ends[|ends| - 1] == j;
        }
      }
    }
  }

  /** Appending the record of row j and j itself to lists that agree
      position by position keeps them in agreement. */
  lemma AppendAgrees(rows: seq<Row>, v1: string, v2: string, corrMethod: string, corr: Coefficient,
                     recs0: seq<Record>, ends0: seq<nat>, j: nat, keep: bool)
    requires j < |rows| && forall z :: 0 <= z < |ends0| ==> ends0[z] < |rows|
    requires |recs0| == |ends0|
    requires forall z :: 0 <= z < |recs0| ==> recs0[z] == RecordAt(rows, v1, v2, corrMethod, corr, ends0[z])
    ensures var recs := recs0 + (if keep then [RecordAt(rows, v1, v2, corrMethod, corr, j)] else []);
            var ends := ends0 + (if keep then [j] else []);
            |recs| == |ends| &&
            forall z :: 0 <= z < |recs| ==> ends[z] < |rows| && recs[z] == RecordAt(rows, v1, v2, corrMethod, corr, ends[z])
  {
  }

  /** Record z is the record of the z-th complete window: windows with a
      missing value are skipped and no complete window is. */
  lemma {:induction false} WalkRecords(rows: seq<Row>, v1: string, v2: string, corrMethod: string,
                                       corr: Coefficient, k: nat)
    requires k <= |rows|
    ensures var recs, ends := Walk(rows, v1, v2, corrMethod, corr, k), CompleteEnds(rows, v1, v2, k);
            |recs| == |ends| &&
            forall z :: 0 <= z < |recs| ==> recs[z] == RecordAt(rows, v1, v2, corrMethod, corr, ends[z])
  {
    if k > 0 {
      WalkRecords(rows, v1, v2, corrMethod, corr, k - 1);
      AppendAgrees(rows, v1, v2, corrMethod, corr, Walk(rows, v1, v2, corrMethod, corr, k - 1),
                   CompleteEnds(rows, v1, v2, k - 1), k - 1, CompleteAt(rows, v1, v2, k - 1));
    }
  }

  /** Over date-sorted rows the records come out in non-decreasing date order. */
  lemma WalkAscending(rows: seq<Row>, v1: string, v2: string, corrMethod: string,
                      corr: Coefficient, k: nat)
    requires k <= |rows| && SortedByDate(rows)
    ensures var recs := Walk(rows, v1, v2, corrMethod, corr, k);
            forall z1, z2 :: 0 <= z1 < z2 < |recs| ==> recs[z1].date <= recs[z2].date
  {
    WalkRecords(rows, v1, v2, corrMethod, corr, k);
    CompleteEndsIncreasing(rows, v1, v2, k);
    var ends := CompleteEnds(rows, v1, v2, k);
    forall z1, z2 | 0 <= z1 < z2 < |ends|
      ensures rows[ends[z1]].date <= rows[ends[z2]].date
    {
    }
  }

  /** The loop of app.py:106-114. */
  method RollingWalk(rows: seq<Row>, v1: string, v2: string, corrMethod: string, corr: Coefficient)
    returns (rollingCorr: seq<Record>)
    ensures rollingCorr == Walk(rows, v1, v2, corrMethod, corr, |rows|)
  {
    rollingCorr := [];
    for k := 0 to |rows|
      invariant rollingCorr == Walk(rows, v1, v2, corrMethod, corr, k)
    {
      var window := Window(rows, k);
      if !Complete(window, v1, v2) {
        assert !CompleteAt(rows, v1, v2, k);
        continue;
      }
      var corrValue := corr(window, corrMethod, v1, v2);
      assert CompleteAt(rows, v1, v2, k) && Record(rows[k].date, corrValue) == RecordAt(rows, v1, v2, corrMethod, corr, k);
      rollingCorr := rollingCorr + [Record(rows[k].date, corrValue)];
    }
  }

  predicate IsNumber(r: Record) {
    r.value.Num?
  }

  predicate DateOrder(a: Record, b: Record) {
    a.date <= b.date
  }

  /** `pd.DataFrame(rolling_corr).dropna()`: the records whose coefficient is a number. */
  function DropNaN(recs: seq<Record>): (kept: seq<Record>)
    ensures |kept| <= |recs|
    ensures forall r :: r in kept <==> r in recs && r.value.Num?
  {
    Filter(recs, IsNumber)
  }

  /** `dropna` drops records one by one and keeps the others in order. */
  lemma {:induction false} DropNaNConcat(a: seq<Record>, b: seq<Record>, r: Record)
    ensures DropNaN(a + b) == DropNaN(a) + DropNaN(b)
    ensures DropNaN([r]) == if r.value.Num? then [r] else []
  {
    FilterConcat(a, b, IsNumber);
    assert [r][1..] == [];
  }

  /** Dropping the NaN records keeps date order. */
  lemma DropNaNAscending(recs: seq<Record>)
    requires forall z1, z2 :: 0 <= z1 < z2 < |recs| ==> recs[z1].date <= recs[z2].date
    ensures var kept := DropNaN(recs);
            forall z1, z2 :: 0 <= z1 < z2 < |kept| ==> kept[z1].date <= kept[z2].date
  {
    FilterPreservesOrder(recs, IsNumber, DateOrder);
  }
}
