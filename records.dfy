/** Survey rows and the partitioner that routes them by positional fields.
    Rows are the CSV lines as lists of text fields; a field is identified only by
    its offset. */
module Records {
  import opened Wrappers
  import opened Sequences
  import opened Text

  type Row = seq<string>

  /** Offset of the sensor field; "-1" in it means the subject played without a sensor. */
  const SensorField: nat := 17
  /** Offset of the therapist field; "-1" in it means the row is not a therapist's. */
  const TherapistField: nat := 30
  const Marker: string := "-1"

  /** Field `field` of `row` contains the substring "-1" (Python's `"-1" in row[field]`). */
  predicate Marked(row: Row, field: nat)
  {
    field < |row| && Contains(row[field], Marker)
  }

  /** Condition of `con_sensor`: `"-1" not in row[17]`. */
  predicate SensorPresent(row: Row) { !Marked(row, SensorField) }
  /** Condition of `sin_sensor`: `"-1" in row[17]`. */
  predicate SensorAbsent(row: Row) { Marked(row, SensorField) }
  /** Condition of the therapists' rows: `"-1" not in row[30]`. */
  predicate Therapist(row: Row) { !Marked(row, TherapistField) }

  /** Every row has a field at offset `field`, so `row[field]` does not raise. */
  predicate AllHaveField(rows: seq<Row>, field: nat)
  {
    forall row | row in rows :: field < |row|
  }

  /** `separate_sensor_users`: the rows whose field 17 lacks "-1" and those whose field
      17 contains it. The first comprehension indexes every row, so one short row
      raises IndexError before either list exists. */
  function SeparateSensorUsers(rows: seq<Row>): (r: Result<(seq<Row>, seq<Row>)>)
    ensures r.Err? <==> !AllHaveField(rows, SensorField)
    ensures r.Err? ==> r.error == FieldMissing(SensorField)
    ensures r.Ok? ==> Interleaves(rows, r.value.0, r.value.1)
    ensures r.Ok? ==> forall row | row in r.value.0 :: SensorField < |row| && !Contains(row[SensorField], Marker)
    ensures r.Ok? ==> forall row | row in r.value.1 :: SensorField < |row| && Contains(row[SensorField], Marker)
  {
    if !AllHaveField(rows, SensorField) then Err(FieldMissing(SensorField))
    else
      var con := Filter(rows, SensorPresent);
      var sin := Filter(rows, SensorAbsent);
      FilterInterleaves(rows, SensorPresent, SensorAbsent);
      FilterMembers(rows, SensorPresent);
      FilterMembers(rows, SensorAbsent);
      Ok((con, sin))
  }

  /** `get_terapeutas_row`: the rows whose field 30 lacks "-1", in their original
      order and with every copy of each such row. */
  function TherapistRows(rows: seq<Row>): (r: Result<seq<Row>>)
    ensures r.Err? <==> !AllHaveField(rows, TherapistField)
    ensures r.Err? ==> r.error == FieldMissing(TherapistField)
    ensures r.Ok? ==> IsSubsequence(r.value, rows)
    ensures r.Ok? ==> forall row | row in rows ::
      multiset(r.value)[row] == if Contains(row[TherapistField], Marker) then 0 else multiset(rows)[row]
    ensures r.Ok? ==> forall row | row in r.value ::
      row in rows && TherapistField < |row| && !Contains(row[TherapistField], Marker)
  {
    if !AllHaveField(rows, TherapistField) then Err(FieldMissing(TherapistField))
    else
      FilterIsSubsequence(rows, Therapist);
      FilterCount(rows, Therapist);
      FilterMembers(rows, Therapist);
      Ok(Filter(rows, Therapist))
  }

  /** The sensor split is the pair of comprehensions and nothing else: together
      with `SeparateSensorUsers`'s own ensures, the two lists are determined. */
  lemma SensorSplitIsFilters(rows: seq<Row>)
    requires AllHaveField(rows, SensorField)
    ensures SeparateSensorUsers(rows) == Ok((Filter(rows, SensorPresent), Filter(rows, SensorAbsent)))
  {
  }

  /** Exhaustive and disjoint: the two sensor lists, counted with multiplicity,
      make up the input exactly, and no row is in both. */
  lemma SensorSplitExhaustiveDisjoint(rows: seq<Row>)
    requires AllHaveField(rows, SensorField)
    ensures var (con, sin) := SeparateSensorUsers(rows).value;
      && multiset(con) + multiset(sin) == multiset(rows)
      && |con| + |sin| == |rows|
      && forall row | row in con :: row !in sin
  {
    var (con, sin) := SeparateSensorUsers(rows).value;
    InterleavesMultiset(rows, con, sin);
    FilterMembers(rows, SensorPresent);
    FilterMembers(rows, SensorAbsent);
  }

  /** The only two-way split of the rows that keeps order and sends each row by its
      field 17 is the one `SeparateSensorUsers` returns. */
  lemma SensorSplitUnique(rows: seq<Row>, con: seq<Row>, sin: seq<Row>)
    requires AllHaveField(rows, SensorField)
    requires Interleaves(rows, con, sin)
    requires forall row | row in con :: SensorPresent(row)
    requires forall row | row in sin :: SensorAbsent(row)
    ensures SeparateSensorUsers(rows) == Ok((con, sin))
  {
    InterleavesByIsFilter(rows, con, sin, SensorPresent, SensorAbsent);
  }

  /** The therapists' list does not depend on the sensor split: its rows, kept by
      field 30 alone, interleave the therapist rows of the two sensor lists. */
  lemma TherapistRowsIndependentOfSensor(rows: seq<Row>)
    requires AllHaveField(rows, SensorField) && AllHaveField(rows, TherapistField)
    ensures var (con, sin) := SeparateSensorUsers(rows).value;
      Interleaves(TherapistRows(rows).value, Filter(con, Therapist), Filter(sin, Therapist))
  {
    var (con, sin) := SeparateSensorUsers(rows).value;
    InterleavesFilter(rows, con, sin, Therapist);
  }

  /** Substring semantics: "-100" contains "-1", so such a row is routed as sensor-absent;
      "0" does not, so that row is sensor-present. */
  lemma MinusHundredIsSensorAbsent(row: Row)
    requires |row| > SensorField && row[SensorField] == "-100"
    ensures SensorAbsent(row) && !SensorPresent(row)
    ensures SeparateSensorUsers([row]) == Ok(([], [row]))
  {
    assert Marker <= "-100";
    assert [row][1..] == [];
    assert AllHaveField([row], SensorField);
    assert Filter([row], SensorPresent) == [];
    assert Filter([row], SensorAbsent) == [row];
  }

  lemma ZeroIsSensorPresent(row: Row)
    requires |row| > SensorField && row[SensorField] == "0"
    ensures SensorPresent(row)
    ensures SeparateSensorUsers([row]) == Ok(([row], []))
  {
    assert !(Marker <= "0");
    assert !Contains("0"[1..], Marker);
    assert [row][1..] == [];
    assert AllHaveField([row], SensorField);
    assert Filter([row], SensorPresent) == [row];
    assert Filter([row], SensorAbsent) == [];
  }
}
