/** The spreadsheet side, seen from the updater: every `values().append` call is
    recorded in an append log instead of being sent, and the row count is a number
    handed to the updater. */
module Sheets {
  import opened Wrappers
  import opened Sequences
  import opened Records
  import opened History

  /** The `values` of an append body: survey rows, or one metric's lists per subject. */
  datatype Body = Rows(rows: seq<Row>) | Series(series: seq<seq<Metric>>)

  /** One `append_to_spreadsheets(table_range, body)` call. */
  datatype Append = Append(target: string, body: Body)

  /** `f"{hoja}!{rango}"` */
  function Target(sheet: string, range: string): string
  {
    sheet + "!" + range
  }

  /** The ranges written to, in call order. */
  function Targets(log: seq<Append>): (r: seq<string>)
    ensures |r| == |log|
    ensures forall k :: 0 <= k < |log| ==> r[k] == log[k].target
  {
    if log == [] then [] else [log[0].target] + Targets(log[1..])
  }

  /** All survey rows appended to `target`, in the order they were sent. */
  function RowsSentTo(log: seq<Append>, target: string): seq<Row>
  {
    if log == [] then []
    else
      var here := if log[0].target == target && log[0].body.Rows? then log[0].body.rows else [];
      here + RowsSentTo(log[1..], target)
  }

  /** All metric lists appended to `target`, in the order they were sent. */
  function SeriesSentTo(log: seq<Append>, target: string): seq<seq<Metric>>
  {
    if log == [] then []
    else
      var here := if log[0].target == target && log[0].body.Series? then log[0].body.series else [];
      here + SeriesSentTo(log[1..], target)
  }

  lemma {:induction false} RowsSentToConcat(a: seq<Append>, b: seq<Append>, target: string)
    ensures RowsSentTo(a + b, target) == RowsSentTo(a, target) + RowsSentTo(b, target)
  {
    if a == [] {
      assert a + b == b;
    } else {
      assert (a + b)[0] == a[0] && (a + b)[1..] == a[1..] + b;
      RowsSentToConcat(a[1..], b, target);
    }
  }

  lemma {:induction false} SeriesSentToConcat(a: seq<Append>, b: seq<Append>, target: string)
    ensures SeriesSentTo(a + b, target) == SeriesSentTo(a, target) + SeriesSentTo(b, target)
  {
    if a == [] {
      assert a + b == b;
    } else {
      assert (a + b)[0] == a[0] && (a + b)[1..] == a[1..] + b;
      SeriesSentToConcat(a[1..], b, target);
    }
  }

  lemma SentToConcat(a: seq<Append>, b: seq<Append>, target: string)
    ensures RowsSentTo(a + b, target) == RowsSentTo(a, target) + RowsSentTo(b, target)
    ensures SeriesSentTo(a + b, target) == SeriesSentTo(a, target) + SeriesSentTo(b, target)
    ensures Targets(a + b) == Targets(a) + Targets(b)
  {
    RowsSentToConcat(a, b, target);
    SeriesSentToConcat(a, b, target);
  }

  lemma SentToSingle(x: Append, target: string)
    ensures RowsSentTo([x], target) == if x.target == target && x.body.Rows? then x.body.rows else []
    ensures SeriesSentTo([x], target) == if x.target == target && x.body.Series? then x.body.series else []
  {
    assert [x][1..] == [];
  }

  /** An append of metric lists made only when there is something to send:
      `if delta: append_to_spreadsheets(target, {"values": delta})`. */
  function SeriesAppend(target: string, delta: seq<seq<Metric>>): seq<Append>
  {
    if delta == [] then [] else [Append(target, Series(delta))]
  }

  lemma SeriesAppendSentTo(target: string, delta: seq<seq<Metric>>, t: string)
    ensures RowsSentTo(SeriesAppend(target, delta), t) == []
    ensures SeriesSentTo(SeriesAppend(target, delta), t) == if t == target then delta else []
  {
    if delta != [] {
      SentToSingle(Append(target, Series(delta)), t);
    }
  }

  /** A log of four appends delivers to each target what each append delivers, in order. */
  lemma SentToFour(a0: Append, a1: Append, a2: Append, a3: Append, target: string)
    ensures RowsSentTo([a0, a1, a2, a3], target)
         == RowsSentTo([a0], target) + RowsSentTo([a1], target) + RowsSentTo([a2], target) + RowsSentTo([a3], target)
    ensures SeriesSentTo([a0, a1, a2, a3], target)
         == SeriesSentTo([a0], target) + SeriesSentTo([a1], target) + SeriesSentTo([a2], target) + SeriesSentTo([a3], target)
  {
    assert [a0, a1, a2, a3] == [a0] + [a1] + [a2] + [a3];
    SentToConcat([a0] + [a1] + [a2], [a3], target);
    SentToConcat([a0] + [a1], [a2], target);
    SentToConcat([a0], [a1], target);
  }

  /** Four row appends to four distinct targets: each target receives exactly its own
      append's rows, and no target receives any metric list. */
  lemma RowsSentToFour(a0: Append, a1: Append, a2: Append, a3: Append)
    requires a0.body.Rows? && a1.body.Rows? && a2.body.Rows? && a3.body.Rows?
    requires a0.target != a1.target && a0.target != a2.target && a0.target != a3.target
    requires a1.target != a2.target && a1.target != a3.target && a2.target != a3.target
    ensures RowsSentTo([a0, a1, a2, a3], a0.target) == a0.body.rows
    ensures RowsSentTo([a0, a1, a2, a3], a1.target) == a1.body.rows
    ensures RowsSentTo([a0, a1, a2, a3], a2.target) == a2.body.rows
    ensures RowsSentTo([a0, a1, a2, a3], a3.target) == a3.body.rows
    ensures forall t :: SeriesSentTo([a0, a1, a2, a3], t) == []
  {
    forall t ensures SeriesSentTo([a0, a1, a2, a3], t) == [] {
      SentToFour(a0, a1, a2, a3, t);
      SentToSingle(a0, t); SentToSingle(a1, t); SentToSingle(a2, t); SentToSingle(a3, t);
    }
    assert RowsSentTo([a0, a1, a2, a3], a0.target) == a0.body.rows by {
      SentToFour(a0, a1, a2, a3, a0.target);
      SentToSingle(a0, a0.target); SentToSingle(a1, a0.target); SentToSingle(a2, a0.target); SentToSingle(a3, a0.target);
    }
    assert RowsSentTo([a0, a1, a2, a3], a1.target) == a1.body.rows by {
      SentToFour(a0, a1, a2, a3, a1.target);
      SentToSingle(a0, a1.target); SentToSingle(a1, a1.target); SentToSingle(a2, a1.target); SentToSingle(a3, a1.target);
    }
    assert RowsSentTo([a0, a1, a2, a3], a2.target) == a2.body.rows by {
      SentToFour(a0, a1, a2, a3, a2.target);
      SentToSingle(a0, a2.target); SentToSingle(a1, a2.target); SentToSingle(a2, a2.target); SentToSingle(a3, a2.target);
    }
    assert RowsSentTo([a0, a1, a2, a3], a3.target) == a3.body.rows by {
      SentToFour(a0, a1, a2, a3, a3.target);
      SentToSingle(a0, a3.target); SentToSingle(a1, a3.target); SentToSingle(a2, a3.target); SentToSingle(a3, a3.target);
    }
  }

  // ---------------------------------------------------------------- row count

  /** Rows 1..20 of the survey sheets: the height of the range `A1:AK20` whose
      values are read back as the row count. */
  const EncuestaRangeHeight: nat := 20

  /** What `len(values().get(range).execute()["values"])` returns for a range that
      starts at row 1 and spans `height` rows, on a sheet whose filled rows are
      `stored`: only the rows inside the range come back. */
  function RowCountInRange(stored: seq<Row>, height: nat): (n: nat)
    ensures n <= |stored| && n <= height
    ensures n == |stored| || n == height
  {
    Min(|stored|, height)
  }

  /** The count over a range with no last row (such as `A:AK`): every filled row. */
  function RowCount(stored: seq<Row>): (n: nat)
    ensures n == |stored|
  {
    |stored|
  }

  /** The survey sheet after one run that appends `csv[count:]` to it. */
  function SyncTodos(csv: seq<Row>, stored: seq<Row>, count: nat): seq<Row>
  {
    stored + Drop(csv, Some(count))
  }

  /** As written: once the sheet holds 21 rows, the count read over `A1:AK20` is 20, so
      a run that has nothing new to send appends row 21 again. */
  lemma CappedCountResendsRows(csv: seq<Row>)
    requires |csv| == EncuestaRangeHeight + 1
    ensures RowCountInRange(csv, EncuestaRangeHeight) == EncuestaRangeHeight
    ensures SyncTodos(csv, csv, RowCountInRange(csv, EncuestaRangeHeight)) == csv + [csv[20]]
    ensures SyncTodos(csv, csv, RowCountInRange(csv, EncuestaRangeHeight)) != csv
  {
    assert Drop(csv, Some(20)) == [csv[20]];
    assert |csv + [csv[20]]| != |csv|;
  }

  /** With the whole-table count, a run brings a sheet holding any prefix of the CSV
      up to the whole CSV, and a second run leaves it unchanged. */
  lemma {:induction false} WholeTableCountIsIdempotent(csv: seq<Row>, stored: seq<Row>)
    requires stored <= csv
    ensures SyncTodos(csv, stored, RowCount(stored)) == csv
    ensures SyncTodos(csv, csv, RowCount(csv)) == csv
  {
    DeltaCompletesAndIsIdempotent(csv, stored);
    DeltaCompletesAndIsIdempotent(csv, csv);
  }
}
