/** The `MissionTestUpdater` class: reads the survey CSV and two directories of
    session histories, works out which rows the spreadsheet has not seen, splits them
    by sensor and therapist flags, and appends them to the sheets. */
module MisionTestUpdater {
  import opened Wrappers
  import opened Sequences
  import opened Records
  import opened History
  import opened Sheets

  const HojaTodos: string := "Todos"
  const HojaConSensor: string := "Con Sensor"
  const HojaSinSensor: string := "Sin Sensor"
  const HojaTerapeutas: string := "Terapeutas"
  const HojaIcs: string := "ICS"
  const RangoHojasEncuesta: string := "A1:AK20"

  const RangoIcsConSensor: string := "A1:K8"
  const RangoSpeedConSensor: string := "A9:K16"
  const RangoIntervalConSensor: string := "A17:K24"
  const RangoRangeConSensor: string := "A25:K32"

  const RangoIcsSinSensor: string := "L1:V8"
  const RangoSpeedSinSensor: string := "L9:V16"
  const RangoIntervalSinSensor: string := "L17:V24"
  const RangoRangeSinSensor: string := "L25:V32"

  /** The four metric ranges of each sensor group, in the order of `Kinds`. */
  const ConSensorRanges: seq<string> :=
    [RangoIcsConSensor, RangoSpeedConSensor, RangoIntervalConSensor, RangoRangeConSensor]
  const SinSensorRanges: seq<string> :=
    [RangoIcsSinSensor, RangoSpeedSinSensor, RangoIntervalSinSensor, RangoRangeSinSensor]

  /** The four-list table `_get_ics` returns for a directory, or the error it raises. */
  function IcsTable(dir: Directory): Result<seq<seq<seq<Metric>>>>
  {
    match Subjects(dir, |dir|, DefaultRounds)
    case Err(e) => Err(e)
    case Ok(ws) => Ok(Columns(ws))
  }

  /** `_get_ics` returns four lists with one entry per directory entry; entry k of
      list j is metric `Kinds[j]` of file `1_Data{k+1:02d}.xml`. It fails exactly
      when one of the files 1..|dir| cannot be read. */
  lemma IcsTableShape(dir: Directory)
    ensures IcsTable(dir).Ok? <==>
      forall i :: 1 <= i <= |dir| ==> LastIc(dir, FileName(i), DefaultRounds).Ok?
    ensures IcsTable(dir).Ok? ==>
      var t := IcsTable(dir).value;
      && |t| == 4
      && forall j, k :: 0 <= j < 4 && 0 <= k < |dir| ==>
           |t[j]| == |dir| && t[j][k] == LastIc(dir, FileName(k + 1), DefaultRounds).value.Get(Kinds[j])
  {
    SubjectsOk(dir, |dir|, DefaultRounds);
  }

  /** `_get_last_ic(file_path, num_rondas)`: the first `num_rondas` entries of
      `HistorialPartidas`, one list per metric, each reversed in place. */
  method GetLastIc(dir: Directory, filePath: string, numRondas: nat) returns (r: Result<Window>)
    ensures r == LastIc(dir, filePath, numRondas)
  {
    if filePath !in dir {
      return Err(FileNotFound(filePath));
    }
    match dir[filePath]
    case Unparsable =>
      r := Err(XmlParseError(filePath));
    case Parsed(None) =>
      r := Err(HistoryMissing(filePath));
    case Parsed(Some(es)) =>
      var ultimasPartidas := Take(es, numRondas);
      var ics := ReadColumn(ultimasPartidas, Dificultad);
      ReverseInPlace(ics);
      var speeds := ReadColumn(ultimasPartidas, Velocidad);
      ReverseInPlace(speeds);
      var interval := ReadColumn(ultimasPartidas, Intervalo);
      ReverseInPlace(interval);
      var range := ReadColumn(ultimasPartidas, Rango);
      ReverseInPlace(range);
      r := Ok(Window(ics[..], speeds[..], interval[..], range[..]));
  }

  /** `[float(p.find(m).text) for p in entries]`, as a fresh list. */
  method ReadColumn(es: seq<Entry>, m: MetricKind) returns (a: array<Metric>)
    ensures fresh(a) && a[..] == Column(es, m)
  {
    a := new Metric[|es|](k requires 0 <= k < |es| => es[k].Get(m));
  }

  /** `_get_ics(dir_path)`: files 1..count, where count is the number of directory
      entries, read in index order into four lists. */
  method GetIcs(dir: Directory) returns (r: Result<seq<seq<seq<Metric>>>>)
    ensures r == IcsTable(dir)
  {
    var ics, speed, interval, rango := [], [], [], [];
    ghost var ws: seq<Window> := [];
    var count := |dir|;
    for i := 1 to count + 1
      invariant Subjects(dir, i - 1, DefaultRounds) == Ok(ws)
      invariant ics == Project(ws, Dificultad) && speed == Project(ws, Velocidad)
      invariant interval == Project(ws, Intervalo) && rango == Project(ws, Rango)
    {
      var w := GetLastIc(dir, FileName(i), DefaultRounds);
      if w.Err? {
        SubjectsErrorStays(dir, i, count, DefaultRounds);
        return Err(w.error);
      }
      ProjectSnoc(ws, w.value);
      assert Subjects(dir, i, DefaultRounds) == Ok(ws + [w.value]);
      ics := ics + [w.value.dificultad];
      speed := speed + [w.value.velocidad];
      interval := interval + [w.value.intervalo];
      rango := rango + [w.value.rango];
      ws := ws + [w.value];
    }
    assert Columns(ws) == [ics, speed, interval, rango];
    r := Ok([ics, speed, interval, rango]);
  }

  lemma ProjectSnoc(ws: seq<Window>, w: Window)
    ensures forall m :: Project(ws + [w], m) == Project(ws, m) + [w.Get(m)]
  {
    forall m ensures Project(ws + [w], m) == Project(ws, m) + [w.Get(m)] {
      assert forall k :: 0 <= k < |ws| ==> (ws + [w])[k] == ws[k];
    }
  }

  /** The four appends of `update_encuesta_data`: nothing when there is no new row,
      otherwise the new rows and their three partitions, all at `A1:AK20`. */
  function EncuestaPlan(all: seq<Row>, con: seq<Row>, sin: seq<Row>, ter: seq<Row>): seq<Append>
  {
    if all == [] then []
    else [ Append(Target(HojaTodos, RangoHojasEncuesta), Rows(all)),
           Append(Target(HojaConSensor, RangoHojasEncuesta), Rows(con)),
           Append(Target(HojaSinSensor, RangoHojasEncuesta), Rows(sin)),
           Append(Target(HojaTerapeutas, RangoHojasEncuesta), Rows(ter)) ]
  }

  /** One sensor group's four appends of `update_ics`, skipped when the group's table
      is empty. */
  function IcsBlock(ranges: seq<string>, data: seq<seq<seq<Metric>>>): seq<Append>
    requires |ranges| == 4
    requires data != [] ==> |data| >= 4
  {
    if data == [] then []
    else [ Append(Target(HojaIcs, ranges[0]), Series(data[0])),
           Append(Target(HojaIcs, ranges[1]), Series(data[1])),
           Append(Target(HojaIcs, ranges[2]), Series(data[2])),
           Append(Target(HojaIcs, ranges[3]), Series(data[3])) ]
  }

  /** The IndexError a short row raises in the partition step, if any. */
  function SurveyError(delta: seq<Row>): Option<Error>
  {
    if !AllHaveField(delta, SensorField) then Some(FieldMissing(SensorField))
    else if !AllHaveField(delta, TherapistField) then Some(FieldMissing(TherapistField))
    else None
  }

  /** The error reading one of the two session directories raises, if any. */
  function IcsError(conDir: Directory, sinDir: Directory): Option<Error>
  {
    if IcsTable(conDir).Err? then Some(IcsTable(conDir).error)
    else if IcsTable(sinDir).Err? then Some(IcsTable(sinDir).error)
    else None
  }

  /** What makes the constructor raise, checked in the constructor's order. */
  function InitError(csvRows: seq<Row>, rowCount: Option<nat>, conDir: Directory, sinDir: Directory): Option<Error>
  {
    var survey := SurveyError(Drop(csvRows, rowCount));
    if survey.Some? then survey else IcsError(conDir, sinDir)
  }

  class MissionTestUpdater {
    var cvsData: seq<Row>
    var numDataInSpreadsheet: Option<nat>
    var dataToUpdate: seq<Row>
    var conSensorData: seq<Row>
    var sinSensorData: seq<Row>
    var terapeutasData: seq<Row>
    var dataConSensor: seq<seq<seq<Metric>>>
    var dataSinSensor: seq<seq<seq<Metric>>>
    /** The appends issued so far, in order. */
    ghost var log: seq<Append>

    /** The state the constructor leaves: the delta is the unsent tail of the CSV, the
        three partitions are taken from it, and both metric tables have four lists. */
    ghost predicate Valid()
      reads this
    {
      RowsValid() && |dataConSensor| == 4 && |dataSinSensor| == 4
    }

    /** The state a successful constructor call leaves for these inputs: `Valid`, nothing
        sent yet, the CSV and the row count stored, and both tables read. */
    ghost predicate Loaded(csvRows: seq<Row>, rowCount: Option<nat>, conDir: Directory, sinDir: Directory)
      reads this
    {
      && Valid() && log == []
      && cvsData == csvRows && numDataInSpreadsheet == rowCount
      && IcsTable(conDir).Ok? && dataConSensor == IcsTable(conDir).value
      && IcsTable(sinDir).Ok? && dataSinSensor == IcsTable(sinDir).value
    }

    /** The survey half of `Valid`. */
    ghost predicate RowsValid()
      reads this`cvsData, this`numDataInSpreadsheet, this`dataToUpdate
      reads this`conSensorData, this`sinSensorData, this`terapeutasData
    {
      && dataToUpdate == Drop(cvsData, numDataInSpreadsheet)
      && AllHaveField(dataToUpdate, SensorField) && AllHaveField(dataToUpdate, TherapistField)
      && conSensorData == Filter(dataToUpdate, SensorPresent)
      && sinSensorData == Filter(dataToUpdate, SensorAbsent)
      && terapeutasData == Filter(dataToUpdate, Therapist)
    }

    /** The attributes start empty, then `_get_csv_data` fills `cvs_data`. */
    constructor (csvRows: seq<Row>)
      ensures cvsData == csvRows && numDataInSpreadsheet == None && dataToUpdate == []
      ensures conSensorData == [] && sinSensorData == [] && terapeutasData == []
      ensures dataConSensor == [] && dataSinSensor == [] && log == []
    {
      cvsData := csvRows;
      numDataInSpreadsheet := None;
      dataToUpdate := [];
      conSensorData, sinSensorData, terapeutasData := [], [], [];
      dataConSensor, dataSinSensor := [], [];
      log := [];
    }

    /** `_separate_sensor_users`: both comprehensions index field 17 of every row, so
        a short row raises before either list is assigned. */
    method SeparateSensorUsers() returns (failure: Option<Error>)
      modifies this`conSensorData, this`sinSensorData
      ensures failure.None? <==> AllHaveField(dataToUpdate, SensorField)
      ensures failure.Some? ==>
        failure.value == FieldMissing(SensorField) && conSensorData == old(conSensorData) && sinSensorData == old(sinSensorData)
      ensures failure.None? ==>
        conSensorData == Filter(dataToUpdate, SensorPresent) && sinSensorData == Filter(dataToUpdate, SensorAbsent)
    {
      if !AllHaveField(dataToUpdate, SensorField) {
        return Some(FieldMissing(SensorField));
      }
      conSensorData := Filter(dataToUpdate, SensorPresent);
      sinSensorData := Filter(dataToUpdate, SensorAbsent);
      failure := None;
    }

    /** `_get_terapeutas_row` */
    method GetTerapeutasRow() returns (failure: Option<Error>)
      modifies this`terapeutasData
      ensures failure.None? <==> AllHaveField(dataToUpdate, TherapistField)
      ensures failure.Some? ==> failure.value == FieldMissing(TherapistField) && terapeutasData == old(terapeutasData)
      ensures failure.None? ==> terapeutasData == Filter(dataToUpdate, Therapist)
    {
      if !AllHaveField(dataToUpdate, TherapistField) {
        return Some(FieldMissing(TherapistField));
      }
      terapeutasData := Filter(dataToUpdate, Therapist);
      failure := None;
    }

    /** Constructor lines 51-54: the row count becomes the cursor, the unsent tail of
        the CSV becomes `data_to_update`, and the partitions are taken from it. */
    method LoadSurvey(rowCount: Option<nat>) returns (failure: Option<Error>)
      modifies this`numDataInSpreadsheet, this`dataToUpdate
      modifies this`conSensorData, this`sinSensorData, this`terapeutasData
      ensures numDataInSpreadsheet == rowCount && dataToUpdate == Drop(cvsData, rowCount)
      ensures failure == SurveyError(dataToUpdate)
      ensures failure.None? ==> RowsValid()
    {
      numDataInSpreadsheet := rowCount;
      dataToUpdate := Drop(cvsData, numDataInSpreadsheet);
      failure := SeparateSensorUsers();
      if failure.Some? {
        return;
      }
      failure := GetTerapeutasRow();
    }

    /** Constructor lines 56-59: both session directories are read into their tables. */
    method LoadIcs(conDir: Directory, sinDir: Directory) returns (failure: Option<Error>)
      modifies this`dataConSensor, this`dataSinSensor
      ensures failure == IcsError(conDir, sinDir)
      ensures failure.None? ==> dataConSensor == IcsTable(conDir).value && dataSinSensor == IcsTable(sinDir).value
      ensures failure.None? ==> |dataConSensor| == 4 && |dataSinSensor| == 4
    {
      var con := GetIcs(conDir);
      if con.Err? {
        return Some(con.error);
      }
      var sin := GetIcs(sinDir);
      if sin.Err? {
        return Some(sin.error);
      }
      dataConSensor, dataSinSensor := con.value, sin.value;
      failure := None;
    }

    /** Constructor lines 51-59: the survey part, then the two directories. */
    method Load(rowCount: Option<nat>, conDir: Directory, sinDir: Directory) returns (failure: Option<Error>)
      requires log == []
      modifies this`numDataInSpreadsheet, this`dataToUpdate
      modifies this`conSensorData, this`sinSensorData, this`terapeutasData
      modifies this`dataConSensor, this`dataSinSensor
      ensures failure == InitError(cvsData, rowCount, conDir, sinDir)
      ensures failure.None? ==> Loaded(cvsData, rowCount, conDir, sinDir)
    {
      failure := LoadSurvey(rowCount);
      if failure.Some? {
        return;
      }
      ghost var rowsLoaded := RowsValid();
      failure := LoadIcs(conDir, sinDir);
      if failure.Some? {
        return;
      }
      assert RowsValid() == rowsLoaded;
    }

    /** `update_encuesta_data` */
    method UpdateEncuestaData()
      modifies this`log
      ensures log == old(log) + EncuestaPlan(dataToUpdate, conSensorData, sinSensorData, terapeutasData)
    {
      if dataToUpdate == [] {
        return;
      }
      log := log + [Append(Target(HojaTodos, RangoHojasEncuesta), Rows(dataToUpdate))];
      log := log + [Append(Target(HojaConSensor, RangoHojasEncuesta), Rows(conSensorData))];
      log := log + [Append(Target(HojaSinSensor, RangoHojasEncuesta), Rows(sinSensorData))];
      log := log + [Append(Target(HojaTerapeutas, RangoHojasEncuesta), Rows(terapeutasData))];
    }

    /** `update_ics`: the con-sensor block, then the sin-sensor block. */
    method UpdateIcs()
      requires dataConSensor != [] ==> |dataConSensor| >= 4
      requires dataSinSensor != [] ==> |dataSinSensor| >= 4
      modifies this`log
      ensures log == old(log) + IcsBlock(ConSensorRanges, dataConSensor) + IcsBlock(SinSensorRanges, dataSinSensor)
    {
      if dataConSensor != [] {
        log := log + [Append(Target(HojaIcs, RangoIcsConSensor), Series(dataConSensor[0]))];
        log := log + [Append(Target(HojaIcs, RangoSpeedConSensor), Series(dataConSensor[1]))];
        log := log + [Append(Target(HojaIcs, RangoIntervalConSensor), Series(dataConSensor[2]))];
        log := log + [Append(Target(HojaIcs, RangoRangeConSensor), Series(dataConSensor[3]))];
      }
      if dataSinSensor != [] {
        log := log + [Append(Target(HojaIcs, RangoIcsSinSensor), Series(dataSinSensor[0]))];
        log := log + [Append(Target(HojaIcs, RangoSpeedSinSensor), Series(dataSinSensor[1]))];
        log := log + [Append(Target(HojaIcs, RangoIntervalSinSensor), Series(dataSinSensor[2]))];
        log := log + [Append(Target(HojaIcs, RangoRangeSinSensor), Series(dataSinSensor[3]))];
      }
    }
  }

  /** `MissionTestUpdater(...)`: the CSV rows, the row count read back from `Todos`
      (None when the read failed) and the two session directories stand for the files
      and the sheet. The two ICS row counts are read by the constructor and never
      used, so they have no effect on the object. */
  method Create(csvRows: seq<Row>, rowCount: Option<nat>, icsConCount: Option<nat>, icsSinCount: Option<nat>,
                conDir: Directory, sinDir: Directory)
    returns (r: Result<MissionTestUpdater>)
    ensures r.Err? <==> InitError(csvRows, rowCount, conDir, sinDir).Some?
    ensures r.Err? ==> r.error == InitError(csvRows, rowCount, conDir, sinDir).value
    ensures r.Ok? ==> fresh(r.value) && r.value.Loaded(csvRows, rowCount, conDir, sinDir)
  {
    var u := new MissionTestUpdater(csvRows);
    var failure := u.Load(rowCount, conDir, sinDir);
    if failure.Some? {
      return Err(failure.value);
    }
    return Ok(u);
  }

  // ---------------------------------------------------------------- what the appends carry

  const EncuestaTargets: seq<string> := [
    Target(HojaTodos, RangoHojasEncuesta), Target(HojaConSensor, RangoHojasEncuesta),
    Target(HojaSinSensor, RangoHojasEncuesta), Target(HojaTerapeutas, RangoHojasEncuesta)]

  lemma EncuestaTargetsDistinct()
    ensures forall i, j :: 0 <= i < j < 4 ==> EncuestaTargets[i] != EncuestaTargets[j]
  {
    assert EncuestaTargets[0][1] == 'o' && EncuestaTargets[3][1] == 'e';
    assert EncuestaTargets[1][0] == 'C' && EncuestaTargets[2][0] == 'S';
  }

  /** The four survey appends, when there is a new row, deliver each body to its own
      sheet and nothing else to it. */
  lemma EncuestaPlanDelivers(all: seq<Row>, con: seq<Row>, sin: seq<Row>, ter: seq<Row>)
    requires all != []
    ensures var plan := EncuestaPlan(all, con, sin, ter);
      && Targets(plan) == EncuestaTargets
      && RowsSentTo(plan, EncuestaTargets[0]) == all
      && RowsSentTo(plan, EncuestaTargets[1]) == con
      && RowsSentTo(plan, EncuestaTargets[2]) == sin
      && RowsSentTo(plan, EncuestaTargets[3]) == ter
  {
    EncuestaTargetsDistinct();
    RowsSentToFour(Append(EncuestaTargets[0], Rows(all)), Append(EncuestaTargets[1], Rows(con)),
                   Append(EncuestaTargets[2], Rows(sin)), Append(EncuestaTargets[3], Rows(ter)));
  }

  /** What `update_encuesta_data` sends, once the constructor has run: nothing when
      no row is new; otherwise four appends in the order Todos, Con Sensor, Sin Sensor,
      Terapeutas, each at `A1:AK20`, so that each sheet receives exactly the unsent
      CSV rows that satisfy its condition, in CSV order. A count at or past the end of
      the CSV sends nothing. */
  lemma EncuestaRoutesDelta(cvs: seq<Row>, count: Option<nat>)
    requires SurveyError(Drop(cvs, count)).None?
    ensures var delta := Drop(cvs, count);
      var plan := EncuestaPlan(delta, Filter(delta, SensorPresent), Filter(delta, SensorAbsent), Filter(delta, Therapist));
      && (plan == [] <==> delta == [])
      && (count.Some? && count.value >= |cvs| ==> plan == [])
      && (delta != [] ==> Targets(plan) == EncuestaTargets)
      && RowsSentTo(plan, EncuestaTargets[0]) == delta
      && RowsSentTo(plan, EncuestaTargets[1]) == Filter(delta, SensorPresent)
      && RowsSentTo(plan, EncuestaTargets[2]) == Filter(delta, SensorAbsent)
      && RowsSentTo(plan, EncuestaTargets[3]) == Filter(delta, Therapist)
  {
    var delta := Drop(cvs, count);
    if delta != [] {
      EncuestaPlanDelivers(delta, Filter(delta, SensorPresent), Filter(delta, SensorAbsent), Filter(delta, Therapist));
    }
  }

  const IcsTargets: seq<string> := [
    Target(HojaIcs, RangoIcsConSensor), Target(HojaIcs, RangoSpeedConSensor),
    Target(HojaIcs, RangoIntervalConSensor), Target(HojaIcs, RangoRangeConSensor),
    Target(HojaIcs, RangoIcsSinSensor), Target(HojaIcs, RangoSpeedSinSensor),
    Target(HojaIcs, RangoIntervalSinSensor), Target(HojaIcs, RangoRangeSinSensor)]

  /** What `update_ics` sends, once the constructor has run: the guards always hold,
      because each table has its four lists, so there are always eight appends, the
      four con-sensor ranges then the four sin-sensor ranges; list j of a table goes to
      its j-th range and holds one entry per directory entry. The ICS row counts play
      no part: every run sends every subject. */
  lemma IcsPlanAlwaysEight(conDir: Directory, sinDir: Directory)
    requires IcsError(conDir, sinDir).None?
    ensures var con, sin := IcsTable(conDir).value, IcsTable(sinDir).value;
      var plan := IcsBlock(ConSensorRanges, con) + IcsBlock(SinSensorRanges, sin);
      && |plan| == 8
      && Targets(plan) == IcsTargets
      && (forall j :: 0 <= j < 4 ==>
           && plan[j].body == Series(Project(Subjects(conDir, |conDir|, DefaultRounds).value, Kinds[j]))
           && |plan[j].body.series| == |conDir|)
      && (forall j :: 4 <= j < 8 ==>
           && plan[j].body == Series(Project(Subjects(sinDir, |sinDir|, DefaultRounds).value, Kinds[j - 4]))
           && |plan[j].body.series| == |sinDir|)
  {
    var con, sin := IcsTable(conDir).value, IcsTable(sinDir).value;
    var a, b := IcsBlock(ConSensorRanges, con), IcsBlock(SinSensorRanges, sin);
    IcsBlockOfTable(ConSensorRanges, conDir);
    IcsBlockOfTable(SinSensorRanges, sinDir);
    SentToConcat(a, b, "");
    assert forall j :: 0 <= j < 4 ==> (a + b)[j] == a[j];
    assert forall j :: 4 <= j < 8 ==> (a + b)[j] == b[j - 4];
  }

  /** One group's block of `update_ics` on a table that was read: four appends, list j
      to range j, each with one entry per directory entry. */
  lemma IcsBlockOfTable(ranges: seq<string>, dir: Directory)
    requires |ranges| == 4 && IcsTable(dir).Ok?
    ensures var plan := IcsBlock(ranges, IcsTable(dir).value);
      && |plan| == 4
      && Targets(plan) == [Target(HojaIcs, ranges[0]), Target(HojaIcs, ranges[1]),
                           Target(HojaIcs, ranges[2]), Target(HojaIcs, ranges[3])]
      && (forall j :: 0 <= j < 4 ==>
           && plan[j].body == Series(Project(Subjects(dir, |dir|, DefaultRounds).value, Kinds[j]))
           && |plan[j].body.series| == |dir|)
  {
    SubjectsOk(dir, |dir|, DefaultRounds);
    var plan := IcsBlock(ranges, IcsTable(dir).value);
    assert Targets(plan) == [plan[0].target, plan[1].target, plan[2].target, plan[3].target];
  }

  // ---------------------------------------------------------------- the unused ICS counts

  /** What one group's block of `update_ics` sends to `t`: list j when `t` is the j-th range. */
  lemma IcsBlockSeriesSentTo(ranges: seq<string>, data: seq<seq<seq<Metric>>>, t: string)
    requires |ranges| == 4 && |data| >= 4
    ensures SeriesSentTo(IcsBlock(ranges, data), t)
         == (if t == Target(HojaIcs, ranges[0]) then data[0] else [])
          + (if t == Target(HojaIcs, ranges[1]) then data[1] else [])
          + (if t == Target(HojaIcs, ranges[2]) then data[2] else [])
          + (if t == Target(HojaIcs, ranges[3]) then data[3] else [])
  {
    var a0, a1, a2, a3 := Append(Target(HojaIcs, ranges[0]), Series(data[0])), Append(Target(HojaIcs, ranges[1]), Series(data[1])),
                          Append(Target(HojaIcs, ranges[2]), Series(data[2])), Append(Target(HojaIcs, ranges[3]), Series(data[3]));
    SentToFour(a0, a1, a2, a3, t);
    SentToSingle(a0, t); SentToSingle(a1, t); SentToSingle(a2, t); SentToSingle(a3, t);
  }

  /** As written: the counts read at lines 56-57 never reach `update_ics`, so a second run on
      the same directories appends every subject's difficulty window to `ICS!A1:K8` again. */
  lemma IcsResendsEverySubject(conDir: Directory, sinDir: Directory)
    requires IcsError(conDir, sinDir).None? && |conDir| > 0
    ensures var con, sin := IcsTable(conDir).value, IcsTable(sinDir).value;
      var run := IcsBlock(ConSensorRanges, con) + IcsBlock(SinSensorRanges, sin);
      && SeriesSentTo(run, IcsTargets[0]) == con[0]
      && |con[0]| == |conDir|
      && SeriesSentTo(run + run, IcsTargets[0]) == con[0] + con[0]
      && |SeriesSentTo(run + run, IcsTargets[0])| == 2 * |conDir|
  {
    var con, sin := IcsTable(conDir).value, IcsTable(sinDir).value;
    var a, b := IcsBlock(ConSensorRanges, con), IcsBlock(SinSensorRanges, sin);
    var t := IcsTargets[0];
    IcsBlockOfTable(ConSensorRanges, conDir);
    IcsBlockOfTable(SinSensorRanges, sinDir);
    assert t == Target(HojaIcs, ConSensorRanges[0]);
    assert |t| == 9 && t[4] == 'A';
    assert SeriesSentTo(a, t) == con[0] by {
      IcsBlockSeriesSentTo(ConSensorRanges, con, t);
      assert |Target(HojaIcs, ConSensorRanges[1])| == 10;
      assert |Target(HojaIcs, ConSensorRanges[2])| == 11;
      assert |Target(HojaIcs, ConSensorRanges[3])| == 11;
    }
    assert SeriesSentTo(b, t) == [] by {
      IcsBlockSeriesSentTo(SinSensorRanges, sin, t);
      assert Target(HojaIcs, SinSensorRanges[0])[4] == 'L';
      assert |Target(HojaIcs, SinSensorRanges[1])| == 10;
      assert |Target(HojaIcs, SinSensorRanges[2])| == 11;
      assert |Target(HojaIcs, SinSensorRanges[3])| == 11;
    }
    SeriesSentToConcat(a, b, t);
    SeriesSentToConcat(a + b, a + b, t);
  }

  /** Corrected: one group's block of `update_ics` with the count read for the group used
      as a cursor into each of its four lists, as the earlier script does with its counts. */
  function CursorIcsBlock(ranges: seq<string>, data: seq<seq<seq<Metric>>>, count: Option<nat>): seq<Append>
    requires |ranges| == 4 && |data| >= 4
  {
    SeriesAppend(Target(HojaIcs, ranges[0]), Drop(data[0], count)) + SeriesAppend(Target(HojaIcs, ranges[1]), Drop(data[1], count))
    + SeriesAppend(Target(HojaIcs, ranges[2]), Drop(data[2], count)) + SeriesAppend(Target(HojaIcs, ranges[3]), Drop(data[3], count))
  }

  /** What the corrected block sends to `t`: list j past the cursor when `t` is the j-th range. */
  lemma CursorIcsBlockSeriesSentTo(ranges: seq<string>, data: seq<seq<seq<Metric>>>, count: Option<nat>, t: string)
    requires |ranges| == 4 && |data| >= 4
    ensures SeriesSentTo(CursorIcsBlock(ranges, data, count), t)
         == (if t == Target(HojaIcs, ranges[0]) then Drop(data[0], count) else [])
          + (if t == Target(HojaIcs, ranges[1]) then Drop(data[1], count) else [])
          + (if t == Target(HojaIcs, ranges[2]) then Drop(data[2], count) else [])
          + (if t == Target(HojaIcs, ranges[3]) then Drop(data[3], count) else [])
  {
    var s0, s1 := SeriesAppend(Target(HojaIcs, ranges[0]), Drop(data[0], count)), SeriesAppend(Target(HojaIcs, ranges[1]), Drop(data[1], count));
    var s2, s3 := SeriesAppend(Target(HojaIcs, ranges[2]), Drop(data[2], count)), SeriesAppend(Target(HojaIcs, ranges[3]), Drop(data[3], count));
    SeriesSentToConcat(s0 + s1 + s2, s3, t);
    SeriesSentToConcat(s0 + s1, s2, t);
    SeriesSentToConcat(s0, s1, t);
    SeriesAppendSentTo(Target(HojaIcs, ranges[0]), Drop(data[0], count), t);
    SeriesAppendSentTo(Target(HojaIcs, ranges[1]), Drop(data[1], count), t);
    SeriesAppendSentTo(Target(HojaIcs, ranges[2]), Drop(data[2], count), t);
    SeriesAppendSentTo(Target(HojaIcs, ranges[3]), Drop(data[3], count), t);
  }

  /** The lists of a table that was read all have one entry per directory entry. */
  lemma IcsTableLengths(dir: Directory)
    requires IcsTable(dir).Ok?
    ensures |IcsTable(dir).value| == 4
    ensures forall i :: 0 <= i < 4 ==> |IcsTable(dir).value[i]| == |dir|
  {
    SubjectsShape(dir, |dir|, DefaultRounds);
  }

  /** The corrected block on four lists of `n` entries: the j-th range, holding the first
      `stored` entries, receives exactly the rest, and with `n` stored nothing is sent. */
  lemma CursorIcsBlockCompletes(ranges: seq<string>, data: seq<seq<seq<Metric>>>, n: nat, stored: nat, j: nat)
    requires |ranges| == 4 && |data| >= 4 && stored <= n && j < 4
    requires forall i :: 0 <= i < 4 ==> |data[i]| == n
    requires forall i :: 0 <= i < 4 && i != j ==> Target(HojaIcs, ranges[i]) != Target(HojaIcs, ranges[j])
    ensures data[j][..stored] + SeriesSentTo(CursorIcsBlock(ranges, data, Some(stored)), Target(HojaIcs, ranges[j])) == data[j]
    ensures CursorIcsBlock(ranges, data, Some(n)) == []
  {
    var t := Target(HojaIcs, ranges[j]);
    CursorIcsBlockSeriesSentTo(ranges, data, Some(stored), t);
    DeltaCompletesAndIsIdempotent(data[j], data[j][..stored]);
    var sent := SeriesSentTo(CursorIcsBlock(ranges, data, Some(stored)), t);
    if j == 0 {
      assert sent == Drop(data[0], Some(stored));
    } else if j == 1 {
      assert sent == Drop(data[1], Some(stored));
    } else if j == 2 {
      assert sent == Drop(data[2], Some(stored));
    } else {
      assert sent == Drop(data[3], Some(stored));
    }
    assert data[j][..stored] <= data[j];
  }

  /** With the cursor, a range that holds the first `stored` subjects receives exactly the
      others, which completes it, and a run once the range holds every subject sends nothing. */
  lemma CursorIcsIsIdempotent(ranges: seq<string>, dir: Directory, stored: nat, j: nat)
    requires |ranges| == 4 && IcsTable(dir).Ok? && stored <= |dir| && j < 4
    requires forall i :: 0 <= i < 4 && i != j ==> Target(HojaIcs, ranges[i]) != Target(HojaIcs, ranges[j])
    ensures var table := IcsTable(dir).value;
      var sent := SeriesSentTo(CursorIcsBlock(ranges, table, Some(stored)), Target(HojaIcs, ranges[j]));
      && |table[j]| == |dir|
      && table[j][..stored] + sent == table[j]
      && CursorIcsBlock(ranges, table, Some(|dir|)) == []
  {
    IcsTableLengths(dir);
    CursorIcsBlockCompletes(ranges, IcsTable(dir).value, |dir|, stored, j);
  }

  /** Four ranges of the IC sheet whose targets are pairwise distinct. */
  predicate RangesDistinct(ranges: seq<string>)
  {
    |ranges| == 4 &&
    forall i, j :: 0 <= i < 4 && 0 <= j < 4 && i != j ==> Target(HojaIcs, ranges[i]) != Target(HojaIcs, ranges[j])
  }

  /** The con-sensor ranges are pairwise distinct, */
  lemma ConSensorRangesDistinct()
    ensures RangesDistinct(ConSensorRanges)
  {
    assert |Target(HojaIcs, ConSensorRanges[0])| == 9 && |Target(HojaIcs, ConSensorRanges[1])| == 10;
    assert Target(HojaIcs, ConSensorRanges[2])[6] == '7' && Target(HojaIcs, ConSensorRanges[3])[6] == '5';
  }

  /** and so are the sin-sensor ranges. */
  lemma SinSensorRangesDistinct()
    ensures RangesDistinct(SinSensorRanges)
  {
    assert |Target(HojaIcs, SinSensorRanges[0])| == 9 && |Target(HojaIcs, SinSensorRanges[1])| == 10;
    assert Target(HojaIcs, SinSensorRanges[2])[6] == '7' && Target(HojaIcs, SinSensorRanges[3])[6] == '5';
  }

  /** The corrected block of one group whose four ranges are distinct: every range is
      completed, and once all of them hold every subject nothing more is sent. */
  lemma CursorGroupIsIdempotent(ranges: seq<string>, dir: Directory, stored: nat)
    requires RangesDistinct(ranges) && IcsTable(dir).Ok? && stored <= |dir|
    ensures var table := IcsTable(dir).value;
      && (forall j :: 0 <= j < 4 ==> |table[j]| == |dir|)
      && (forall j :: 0 <= j < 4 ==>
            table[j][..stored] + SeriesSentTo(CursorIcsBlock(ranges, table, Some(stored)), Target(HojaIcs, ranges[j])) == table[j])
      && CursorIcsBlock(ranges, table, Some(|dir|)) == []
  {
    IcsTableLengths(dir);
    forall j | 0 <= j < 4
      ensures IcsTable(dir).value[j][..stored]
           + SeriesSentTo(CursorIcsBlock(ranges, IcsTable(dir).value, Some(stored)), Target(HojaIcs, ranges[j]))
           == IcsTable(dir).value[j]
    {
      CursorIcsIsIdempotent(ranges, dir, stored, j);
    }
    CursorIcsIsIdempotent(ranges, dir, stored, 0);
  }

  /** Corrected `update_ics` on the constructor's two tables, each group's count used as its
      cursor: each of the eight ranges ends up holding every subject's list of its metric,
      and a run once both groups are complete sends nothing. */
  lemma CursorUpdateIcsIsIdempotent(conDir: Directory, sinDir: Directory, conStored: nat, sinStored: nat)
    requires IcsError(conDir, sinDir).None? && conStored <= |conDir| && sinStored <= |sinDir|
    ensures var con, sin := IcsTable(conDir).value, IcsTable(sinDir).value;
      && (forall j :: 0 <= j < 4 ==> |con[j]| == |conDir| && |sin[j]| == |sinDir|)
      && (forall j :: 0 <= j < 4 ==>
            con[j][..conStored] + SeriesSentTo(CursorIcsBlock(ConSensorRanges, con, Some(conStored)), Target(HojaIcs, ConSensorRanges[j])) == con[j])
      && (forall j :: 0 <= j < 4 ==>
            sin[j][..sinStored] + SeriesSentTo(CursorIcsBlock(SinSensorRanges, sin, Some(sinStored)), Target(HojaIcs, SinSensorRanges[j])) == sin[j])
      && CursorIcsBlock(ConSensorRanges, con, Some(|conDir|)) + CursorIcsBlock(SinSensorRanges, sin, Some(|sinDir|)) == []
  {
    ConSensorRangesDistinct();
    SinSensorRangesDistinct();
    CursorGroupIsIdempotent(ConSensorRanges, conDir, conStored);
    CursorGroupIsIdempotent(SinSensorRanges, sinDir, sinStored);
  }
}
