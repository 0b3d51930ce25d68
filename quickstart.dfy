/** The earlier script: the same sync written as free functions and one `main`
    that appends the difficulty windows and the survey partitions. */
module Quickstart {
  import opened Wrappers
  import opened Sequences
  import opened Records
  import opened History
  import opened Sheets

  const HojaTodos: string := "Todos"
  const HojaConSensor: string := "Con Sensor"
  const HojaSinSensor: string := "Sin Sensor"
  const HojaTerapeutas: string := "Terapeutas"
  const HojaIcs: string := "ICS"
  const Rango: string := "A1:AK20"

  /** The IC ranges of the first block of `main`, and those of the second. */
  const FirstRangoIcsConSensor: string := "A1:K15"
  const FirstRangoIcsSinSensor: string := "L1:Z15"
  const SecondRangoIcsConSensor: string := "A1:K20"
  const SecondRangoIcsSinSensor: string := "L1:Z20"

  /** `get_last_ic(file_path)`: the difficulty of the first ten entries, reversed in place. */
  method GetLastIc(dir: Directory, filePath: string) returns (r: Result<seq<Metric>>)
    ensures r.Err? <==> LastIc(dir, filePath, DefaultRounds).Err?
    ensures r.Err? ==> r.error == LastIc(dir, filePath, DefaultRounds).error
    ensures r.Ok? ==> r.value == LastIc(dir, filePath, DefaultRounds).value.dificultad
  {
    if filePath !in dir {
      return Err(FileNotFound(filePath));
    }
    match dir[filePath]
    case Unparsable =>
      r := Err(XmlParseError(filePath));
    case Parsed(None) =>
      r := Err(HistoryMissing(filePath));
    case Parsed(Some(es)) =>
      var ultimasPartidas := Take(es, DefaultRounds);
      var ics := new Metric[|ultimasPartidas|](k requires 0 <= k < |ultimasPartidas| => ultimasPartidas[k].dificultad);
      assert ics[..] == Column(ultimasPartidas, Dificultad);
      ReverseInPlace(ics);
      r := Ok(ics[..]);
  }

  /** The list `get_ics` returns for a directory, or the error it raises. */
  function IcsList(dir: Directory): Result<seq<seq<Metric>>>
  {
    match Subjects(dir, |dir|, DefaultRounds)
    case Err(e) => Err(e)
    case Ok(ws) => Ok(Project(ws, Dificultad))
  }

  /** `get_ics` has one difficulty window per directory entry, window k being that of
      `1_Data{k+1:02d}.xml`, and fails exactly when one of those files cannot be read. */
  lemma IcsListShape(dir: Directory)
    ensures IcsList(dir).Ok? <==>
      forall i :: 1 <= i <= |dir| ==> LastIc(dir, FileName(i), DefaultRounds).Ok?
    ensures IcsList(dir).Ok? ==>
      && |IcsList(dir).value| == |dir|
      && forall k :: 0 <= k < |dir| ==>
           IcsList(dir).value[k] == LastIc(dir, FileName(k + 1), DefaultRounds).value.dificultad
  {
    SubjectsOk(dir, |dir|, DefaultRounds);
  }

  /** `get_ics(dir_path)` */
  method GetIcs(dir: Directory) returns (r: Result<seq<seq<Metric>>>)
    ensures r == IcsList(dir)
  {
    var ics := [];
    ghost var ws: seq<Window> := [];
    var count := |dir|;
    for i := 1 to count + 1
      invariant Subjects(dir, i - 1, DefaultRounds) == Ok(ws)
      invariant ics == Project(ws, Dificultad)
    {
      var w := GetLastIc(dir, FileName(i));
      if w.Err? {
        SubjectsErrorStays(dir, i, count, DefaultRounds);
        return Err(w.error);
      }
      ghost var window := LastIc(dir, FileName(i), DefaultRounds).value;
      assert forall k :: 0 <= k < |ws| ==> (ws + [window])[k] == ws[k];
      ics := ics + [w.value];
      ws := ws + [window];
    }
    r := Ok(ics);
  }

  /** One IC block of `main`: each group's windows past its own row count. */
  function IcsBlock(con: seq<seq<Metric>>, sin: seq<seq<Metric>>, conRange: string, sinRange: string,
                    conCount: Option<nat>, sinCount: Option<nat>): seq<Append>
  {
    SeriesAppend(Target(HojaIcs, conRange), Drop(con, conCount)) + SeriesAppend(Target(HojaIcs, sinRange), Drop(sin, sinCount))
  }

  /** The four survey appends of `main`, all at `RANGO`. */
  function PartitionPlan(values: seq<Row>, con: seq<Row>, sin: seq<Row>, ter: seq<Row>): seq<Append>
  {
    [ Append(Target(HojaTodos, Rango), Rows(values)),
      Append(Target(HojaConSensor, Rango), Rows(con)),
      Append(Target(HojaSinSensor, Rango), Rows(sin)),
      Append(Target(HojaTerapeutas, Rango), Rows(ter)) ]
  }

  /** What one run of `main` did: the appends it made, and the exception that ended it early. */
  datatype Outcome = Outcome(log: seq<Append>, failure: Option<Error>)

  /** One run of `main`. `rowCount` is the count read from `Todos`; the other four are
      the counts read from the ICS ranges before each IC block. Both `get_ics` calls of
      a block run before its appends, and the second block reads the same directories. */
  function Script(csv: seq<Row>, rowCount: Option<nat>,
                  firstConCount: Option<nat>, firstSinCount: Option<nat>,
                  secondConCount: Option<nat>, secondSinCount: Option<nat>,
                  conDir: Directory, sinDir: Directory): Outcome
  {
    if IcsList(conDir).Err? then Outcome([], Some(IcsList(conDir).error))
    else if IcsList(sinDir).Err? then Outcome([], Some(IcsList(sinDir).error))
    else
      var con, sin := IcsList(conDir).value, IcsList(sinDir).value;
      SurveyRun(Drop(csv, rowCount),
                IcsBlock(con, sin, FirstRangoIcsConSensor, FirstRangoIcsSinSensor, firstConCount, firstSinCount),
                IcsBlock(con, sin, SecondRangoIcsConSensor, SecondRangoIcsSinSensor, secondConCount, secondSinCount))
  }

  /** The part of `main` after the first IC block: return when no row is new,
      otherwise partition, append the four survey bodies, then the second IC block. */
  function SurveyRun(values: seq<Row>, first: seq<Append>, second: seq<Append>): Outcome
  {
    if values == [] then Outcome(first, None)
    else match SeparateSensorUsers(values)
      case Err(e) => Outcome(first, Some(e))
      case Ok((conRows, sinRows)) =>
        match TherapistRows(values)
        case Err(e) => Outcome(first, Some(e))
        case Ok(ter) => Outcome(first + PartitionPlan(values, conRows, sinRows, ter) + second, None)
  }

  /** Once both directories are read, `main` goes on to the survey part with both IC blocks. */
  lemma ScriptAfterIcs(csv: seq<Row>, rowCount: Option<nat>,
                       firstConCount: Option<nat>, firstSinCount: Option<nat>,
                       secondConCount: Option<nat>, secondSinCount: Option<nat>,
                       conDir: Directory, sinDir: Directory)
    requires IcsList(conDir).Ok? && IcsList(sinDir).Ok?
    ensures Script(csv, rowCount, firstConCount, firstSinCount, secondConCount, secondSinCount, conDir, sinDir)
         == SurveyRun(Drop(csv, rowCount),
                      IcsBlock(IcsList(conDir).value, IcsList(sinDir).value, FirstRangoIcsConSensor, FirstRangoIcsSinSensor, firstConCount, firstSinCount),
                      IcsBlock(IcsList(conDir).value, IcsList(sinDir).value, SecondRangoIcsConSensor, SecondRangoIcsSinSensor, secondConCount, secondSinCount))
  {
  }

  /** One IC block of `main`: both slices, each appended only when it is not empty. */
  method AppendIcsBlock(log: seq<Append>, con: seq<seq<Metric>>, sin: seq<seq<Metric>>,
                        conRange: string, sinRange: string, conCount: Option<nat>, sinCount: Option<nat>)
    returns (log': seq<Append>)
    ensures log' == log + IcsBlock(con, sin, conRange, sinRange, conCount, sinCount)
  {
    log' := log;
    var icsCon := Drop(con, conCount);
    var icsSin := Drop(sin, sinCount);
    if icsCon != [] {
      log' := log' + [Append(Target(HojaIcs, conRange), Series(icsCon))];
    }
    if icsSin != [] {
      log' := log' + [Append(Target(HojaIcs, sinRange), Series(icsSin))];
    }
  }

  /** `main`, with the CSV rows, the row counts and the two directories as inputs. */
  method RunScript(csv: seq<Row>, rowCount: Option<nat>,
                   firstConCount: Option<nat>, firstSinCount: Option<nat>,
                   secondConCount: Option<nat>, secondSinCount: Option<nat>,
                   conDir: Directory, sinDir: Directory)
    returns (log: seq<Append>, failure: Option<Error>)
    ensures Outcome(log, failure) ==
      Script(csv, rowCount, firstConCount, firstSinCount, secondConCount, secondSinCount, conDir, sinDir)
  {
    log := [];
    var values := csv;
    values := Drop(values, rowCount);

    var icsConSensor := GetIcs(conDir);
    if icsConSensor.Err? {
      return log, Some(icsConSensor.error);
    }
    var icsSinSensor := GetIcs(sinDir);
    if icsSinSensor.Err? {
      return log, Some(icsSinSensor.error);
    }
    ghost var con, sin := icsConSensor.value, icsSinSensor.value;
    ghost var second := IcsBlock(con, sin, SecondRangoIcsConSensor, SecondRangoIcsSinSensor, secondConCount, secondSinCount);
    log := AppendIcsBlock(log, icsConSensor.value, icsSinSensor.value,
                          FirstRangoIcsConSensor, FirstRangoIcsSinSensor, firstConCount, firstSinCount);
    ghost var first := log;
    ScriptAfterIcs(csv, rowCount, firstConCount, firstSinCount, secondConCount, secondSinCount, conDir, sinDir);
    assert values == Drop(csv, rowCount);
    assert con == IcsList(conDir).value && sin == IcsList(sinDir).value;
    assert [] + IcsBlock(con, sin, FirstRangoIcsConSensor, FirstRangoIcsSinSensor, firstConCount, firstSinCount)
        == IcsBlock(con, sin, FirstRangoIcsConSensor, FirstRangoIcsSinSensor, firstConCount, firstSinCount);
    assert first == IcsBlock(con, sin, FirstRangoIcsConSensor, FirstRangoIcsSinSensor, firstConCount, firstSinCount);
    ghost var script := Script(csv, rowCount, firstConCount, firstSinCount, secondConCount, secondSinCount, conDir, sinDir);
    assert script == SurveyRun(values, first, second);
    if values == [] {
      return log, None;
    }

    var separated := SeparateSensorUsers(values);
    if separated.Err? {
      return log, Some(separated.error);
    }
    var terapeutas := TherapistRows(values);
    if terapeutas.Err? {
      return log, Some(terapeutas.error);
    }
    var (conSensorValues, sinSensorValues) := separated.value;
    assert separated == Ok((conSensorValues, sinSensorValues));
    ghost var plan := PartitionPlan(values, conSensorValues, sinSensorValues, terapeutas.value);
    assert SurveyRun(values, first, second) == Outcome(first + plan + second, None);
    log := log + PartitionPlan(values, conSensorValues, sinSensorValues, terapeutas.value);

    icsConSensor := GetIcs(conDir);
    icsSinSensor := GetIcs(sinDir);
    log := AppendIcsBlock(log, icsConSensor.value, icsSinSensor.value,
                          SecondRangoIcsConSensor, SecondRangoIcsSinSensor, secondConCount, secondSinCount);
    failure := None;
    assert log == first + plan + second;
    assert Outcome(log, failure) == script;
  }

  // ---------------------------------------------------------------- what the appends carry

  /** The four survey ranges and the four IC ranges of `main` are pairwise distinct. */
  lemma TargetsDistinct()
    ensures Target(HojaTodos, Rango) != Target(HojaConSensor, Rango)
    ensures Target(HojaTodos, Rango) != Target(HojaSinSensor, Rango)
    ensures Target(HojaTodos, Rango) != Target(HojaTerapeutas, Rango)
    ensures Target(HojaConSensor, Rango) != Target(HojaSinSensor, Rango)
    ensures Target(HojaConSensor, Rango) != Target(HojaTerapeutas, Rango)
    ensures Target(HojaSinSensor, Rango) != Target(HojaTerapeutas, Rango)
    ensures Target(HojaIcs, FirstRangoIcsConSensor) != Target(HojaIcs, FirstRangoIcsSinSensor)
    ensures Target(HojaIcs, SecondRangoIcsConSensor) != Target(HojaIcs, SecondRangoIcsSinSensor)
    ensures Target(HojaIcs, FirstRangoIcsConSensor) != Target(HojaIcs, SecondRangoIcsConSensor)
    ensures Target(HojaIcs, FirstRangoIcsConSensor) != Target(HojaIcs, SecondRangoIcsSinSensor)
    ensures Target(HojaIcs, FirstRangoIcsSinSensor) != Target(HojaIcs, SecondRangoIcsConSensor)
    ensures Target(HojaIcs, FirstRangoIcsSinSensor) != Target(HojaIcs, SecondRangoIcsSinSensor)
  {
    assert Target(HojaTodos, Rango)[1] == 'o';
    assert Target(HojaConSensor, Rango)[0] == 'C';
    assert Target(HojaSinSensor, Rango)[0] == 'S';
    assert Target(HojaTerapeutas, Rango)[1] == 'e';
    assert Target(HojaIcs, FirstRangoIcsConSensor)[4] == 'A' && Target(HojaIcs, FirstRangoIcsConSensor)[8] == '1';
    assert Target(HojaIcs, FirstRangoIcsSinSensor)[4] == 'L' && Target(HojaIcs, FirstRangoIcsSinSensor)[8] == '1';
    assert Target(HojaIcs, SecondRangoIcsConSensor)[4] == 'A' && Target(HojaIcs, SecondRangoIcsConSensor)[8] == '2';
    assert Target(HojaIcs, SecondRangoIcsSinSensor)[4] == 'L' && Target(HojaIcs, SecondRangoIcsSinSensor)[8] == '2';
  }

  /** An IC block sends no survey rows, and sends to each of its two ranges exactly
      the windows past that group's row count; nothing else receives windows. */
  lemma IcsBlockSentTo(con: seq<seq<Metric>>, sin: seq<seq<Metric>>, conRange: string, sinRange: string,
                       conCount: Option<nat>, sinCount: Option<nat>, t: string)
    ensures var block := IcsBlock(con, sin, conRange, sinRange, conCount, sinCount);
      && RowsSentTo(block, t) == []
      && SeriesSentTo(block, t) ==
           (if t == Target(HojaIcs, conRange) then Drop(con, conCount) else [])
           + (if t == Target(HojaIcs, sinRange) then Drop(sin, sinCount) else [])
  {
    SentToConcat(SeriesAppend(Target(HojaIcs, conRange), Drop(con, conCount)), SeriesAppend(Target(HojaIcs, sinRange), Drop(sin, sinCount)), t);
    SeriesAppendSentTo(Target(HojaIcs, conRange), Drop(con, conCount), t);
    SeriesAppendSentTo(Target(HojaIcs, sinRange), Drop(sin, sinCount), t);
  }

  /** The survey appends send no windows, and each of the four survey ranges receives its
      own body. */
  lemma PartitionPlanSentTo(values: seq<Row>, con: seq<Row>, sin: seq<Row>, ter: seq<Row>)
    ensures var plan := PartitionPlan(values, con, sin, ter);
      && RowsSentTo(plan, Target(HojaTodos, Rango)) == values
      && RowsSentTo(plan, Target(HojaConSensor, Rango)) == con
      && RowsSentTo(plan, Target(HojaSinSensor, Rango)) == sin
      && RowsSentTo(plan, Target(HojaTerapeutas, Rango)) == ter
      && forall t :: SeriesSentTo(plan, t) == []
  {
    TargetsDistinct();
    RowsSentToFour(Append(Target(HojaTodos, Rango), Rows(values)), Append(Target(HojaConSensor, Rango), Rows(con)),
                   Append(Target(HojaSinSensor, Rango), Rows(sin)), Append(Target(HojaTerapeutas, Rango), Rows(ter)));
  }

  /** `main` fails exactly when a directory cannot be read, or when there is a new row
      and some new row lacks the sensor or the therapist field; the directory errors
      come first and leave the log empty. A survey error comes after the first IC
      block has already been appended. */
  lemma ScriptFailure(csv: seq<Row>, rowCount: Option<nat>,
                      firstConCount: Option<nat>, firstSinCount: Option<nat>,
                      secondConCount: Option<nat>, secondSinCount: Option<nat>,
                      conDir: Directory, sinDir: Directory)
    ensures var o := Script(csv, rowCount, firstConCount, firstSinCount, secondConCount, secondSinCount, conDir, sinDir);
      var values := Drop(csv, rowCount);
      && (o.failure.None? <==>
            && IcsList(conDir).Ok? && IcsList(sinDir).Ok?
            && (values != [] ==> AllHaveField(values, SensorField) && AllHaveField(values, TherapistField)))
      && (IcsList(conDir).Err? ==> o == Outcome([], Some(IcsList(conDir).error)))
      && (IcsList(conDir).Ok? && IcsList(sinDir).Err? ==> o == Outcome([], Some(IcsList(sinDir).error)))
      && (IcsList(conDir).Ok? && IcsList(sinDir).Ok? && o.failure.Some? ==>
            && o.failure.value.FieldMissing?
            && o.log == IcsBlock(IcsList(conDir).value, IcsList(sinDir).value,
                                 FirstRangoIcsConSensor, FirstRangoIcsSinSensor, firstConCount, firstSinCount))
  {
    if IcsList(conDir).Ok? && IcsList(sinDir).Ok? {
      ScriptAfterIcs(csv, rowCount, firstConCount, firstSinCount, secondConCount, secondSinCount, conDir, sinDir);
    }
  }

  /** With no new survey row, `main` sends no survey rows at all and stops after the
      first IC block. */
  lemma ScriptWithoutNewRows(csv: seq<Row>, rowCount: Option<nat>,
                             firstConCount: Option<nat>, firstSinCount: Option<nat>,
                             secondConCount: Option<nat>, secondSinCount: Option<nat>,
                             conDir: Directory, sinDir: Directory, t: string)
    requires Drop(csv, rowCount) == []
    requires IcsList(conDir).Ok? && IcsList(sinDir).Ok?
    ensures var o := Script(csv, rowCount, firstConCount, firstSinCount, secondConCount, secondSinCount, conDir, sinDir);
      && o.failure.None?
      && o.log == IcsBlock(IcsList(conDir).value, IcsList(sinDir).value,
                           FirstRangoIcsConSensor, FirstRangoIcsSinSensor, firstConCount, firstSinCount)
      && RowsSentTo(o.log, t) == []
  {
    ScriptAfterIcs(csv, rowCount, firstConCount, firstSinCount, secondConCount, secondSinCount, conDir, sinDir);
    IcsBlockSentTo(IcsList(conDir).value, IcsList(sinDir).value,
                   FirstRangoIcsConSensor, FirstRangoIcsSinSensor, firstConCount, firstSinCount, t);
  }

  /** An IC append never carries an empty list of windows. */
  lemma IcsBlockNonEmpty(con: seq<seq<Metric>>, sin: seq<seq<Metric>>, conRange: string, sinRange: string,
                         conCount: Option<nat>, sinCount: Option<nat>)
    ensures var block := IcsBlock(con, sin, conRange, sinRange, conCount, sinCount);
      forall k :: 0 <= k < |block| ==> block[k].body.Series? && block[k].body.series != []
  {
  }

  /** The log of a run that gets past both partitions, with new rows `values`: the first
      IC block, the four survey appends, the second IC block. */
  function SuccessLog(values: seq<Row>, con: seq<seq<Metric>>, sin: seq<seq<Metric>>,
                      firstConCount: Option<nat>, firstSinCount: Option<nat>,
                      secondConCount: Option<nat>, secondSinCount: Option<nat>): seq<Append>
  {
    IcsBlock(con, sin, FirstRangoIcsConSensor, FirstRangoIcsSinSensor, firstConCount, firstSinCount)
    + PartitionPlan(values, Filter(values, SensorPresent), Filter(values, SensorAbsent), Filter(values, Therapist))
    + IcsBlock(con, sin, SecondRangoIcsConSensor, SecondRangoIcsSinSensor, secondConCount, secondSinCount)
  }

  /** In such a run the survey rows all come from the survey appends, */
  lemma SuccessLogRowsSentTo(values: seq<Row>, con: seq<seq<Metric>>, sin: seq<seq<Metric>>,
                             firstConCount: Option<nat>, firstSinCount: Option<nat>,
                             secondConCount: Option<nat>, secondSinCount: Option<nat>, t: string)
    ensures RowsSentTo(SuccessLog(values, con, sin, firstConCount, firstSinCount, secondConCount, secondSinCount), t)
         == RowsSentTo(PartitionPlan(values, Filter(values, SensorPresent), Filter(values, SensorAbsent), Filter(values, Therapist)), t)
  {
    var first, plan, second := IcsBlock(con, sin, FirstRangoIcsConSensor, FirstRangoIcsSinSensor, firstConCount, firstSinCount),
      PartitionPlan(values, Filter(values, SensorPresent), Filter(values, SensorAbsent), Filter(values, Therapist)),
      IcsBlock(con, sin, SecondRangoIcsConSensor, SecondRangoIcsSinSensor, secondConCount, secondSinCount);
    RowsSentToConcat(first + plan, second, t);
    RowsSentToConcat(first, plan, t);
    IcsBlockSentTo(con, sin, FirstRangoIcsConSensor, FirstRangoIcsSinSensor, firstConCount, firstSinCount, t);
    IcsBlockSentTo(con, sin, SecondRangoIcsConSensor, SecondRangoIcsSinSensor, secondConCount, secondSinCount, t);
  }

  /** and the windows all come from the two IC blocks. */
  lemma SuccessLogSeriesSentTo(values: seq<Row>, con: seq<seq<Metric>>, sin: seq<seq<Metric>>,
                             firstConCount: Option<nat>, firstSinCount: Option<nat>,
                             secondConCount: Option<nat>, secondSinCount: Option<nat>, t: string)
    ensures SeriesSentTo(SuccessLog(values, con, sin, firstConCount, firstSinCount, secondConCount, secondSinCount), t)
         == SeriesSentTo(IcsBlock(con, sin, FirstRangoIcsConSensor, FirstRangoIcsSinSensor, firstConCount, firstSinCount), t)
            + SeriesSentTo(IcsBlock(con, sin, SecondRangoIcsConSensor, SecondRangoIcsSinSensor, secondConCount, secondSinCount), t)
  {
    var first, plan, second := IcsBlock(con, sin, FirstRangoIcsConSensor, FirstRangoIcsSinSensor, firstConCount, firstSinCount),
      PartitionPlan(values, Filter(values, SensorPresent), Filter(values, SensorAbsent), Filter(values, Therapist)),
      IcsBlock(con, sin, SecondRangoIcsConSensor, SecondRangoIcsSinSensor, secondConCount, secondSinCount);
    SeriesSentToConcat(first + plan, second, t);
    SeriesSentToConcat(first, plan, t);
    PartitionPlanSentTo(values, Filter(values, SensorPresent), Filter(values, SensorAbsent), Filter(values, Therapist));
  }

  /** A successful run with new rows is the first IC block, the four survey appends of
      the new rows and their partitions, and the second IC block; every IC append in it
      carries at least one window. */
  lemma ScriptSuccessLog(csv: seq<Row>, rowCount: Option<nat>,
                         firstConCount: Option<nat>, firstSinCount: Option<nat>,
                         secondConCount: Option<nat>, secondSinCount: Option<nat>,
                         conDir: Directory, sinDir: Directory)
    requires Drop(csv, rowCount) != []
    requires Script(csv, rowCount, firstConCount, firstSinCount, secondConCount, secondSinCount, conDir, sinDir).failure.None?
    ensures IcsList(conDir).Ok? && IcsList(sinDir).Ok?
    ensures Script(csv, rowCount, firstConCount, firstSinCount, secondConCount, secondSinCount, conDir, sinDir).log
         == SuccessLog(Drop(csv, rowCount), IcsList(conDir).value, IcsList(sinDir).value,
                       firstConCount, firstSinCount, secondConCount, secondSinCount)
  {
    ScriptAfterIcs(csv, rowCount, firstConCount, firstSinCount, secondConCount, secondSinCount, conDir, sinDir);
    SensorSplitIsFilters(Drop(csv, rowCount));
  }

  /** In such a run each survey sheet receives its own new rows and nothing else. */
  lemma SuccessLogRoutesRows(values: seq<Row>, con: seq<seq<Metric>>, sin: seq<seq<Metric>>,
                          firstConCount: Option<nat>, firstSinCount: Option<nat>,
                          secondConCount: Option<nat>, secondSinCount: Option<nat>)
    ensures var log := SuccessLog(values, con, sin, firstConCount, firstSinCount, secondConCount, secondSinCount);
      && RowsSentTo(log, Target(HojaTodos, Rango)) == values
      && RowsSentTo(log, Target(HojaConSensor, Rango)) == Filter(values, SensorPresent)
      && RowsSentTo(log, Target(HojaSinSensor, Rango)) == Filter(values, SensorAbsent)
      && RowsSentTo(log, Target(HojaTerapeutas, Rango)) == Filter(values, Therapist)
  {
    PartitionPlanSentTo(values, Filter(values, SensorPresent), Filter(values, SensorAbsent), Filter(values, Therapist));
    SuccessLogRowsSentTo(values, con, sin, firstConCount, firstSinCount, secondConCount, secondSinCount, Target(HojaTodos, Rango));
    SuccessLogRowsSentTo(values, con, sin, firstConCount, firstSinCount, secondConCount, secondSinCount, Target(HojaConSensor, Rango));
    SuccessLogRowsSentTo(values, con, sin, firstConCount, firstSinCount, secondConCount, secondSinCount, Target(HojaSinSensor, Rango));
    SuccessLogRowsSentTo(values, con, sin, firstConCount, firstSinCount, secondConCount, secondSinCount, Target(HojaTerapeutas, Rango));
  }

  /** In such a run each IC range receives the windows past its own row count. */
  lemma SuccessLogRoutesWindows(values: seq<Row>, con: seq<seq<Metric>>, sin: seq<seq<Metric>>,
                          firstConCount: Option<nat>, firstSinCount: Option<nat>,
                          secondConCount: Option<nat>, secondSinCount: Option<nat>)
    ensures var log := SuccessLog(values, con, sin, firstConCount, firstSinCount, secondConCount, secondSinCount);
      && SeriesSentTo(log, Target(HojaIcs, FirstRangoIcsConSensor)) == Drop(con, firstConCount)
      && SeriesSentTo(log, Target(HojaIcs, FirstRangoIcsSinSensor)) == Drop(sin, firstSinCount)
      && SeriesSentTo(log, Target(HojaIcs, SecondRangoIcsConSensor)) == Drop(con, secondConCount)
      && SeriesSentTo(log, Target(HojaIcs, SecondRangoIcsSinSensor)) == Drop(sin, secondSinCount)
  {
    var log := SuccessLog(values, con, sin, firstConCount, firstSinCount, secondConCount, secondSinCount);
    TargetsDistinct();
    assert SeriesSentTo(log, Target(HojaIcs, FirstRangoIcsConSensor)) == Drop(con, firstConCount) by {
      SuccessLogSeriesSentTo(values, con, sin, firstConCount, firstSinCount, secondConCount, secondSinCount, Target(HojaIcs, FirstRangoIcsConSensor));
      IcsBlockSentTo(con, sin, FirstRangoIcsConSensor, FirstRangoIcsSinSensor, firstConCount, firstSinCount, Target(HojaIcs, FirstRangoIcsConSensor));
      IcsBlockSentTo(con, sin, SecondRangoIcsConSensor, SecondRangoIcsSinSensor, secondConCount, secondSinCount, Target(HojaIcs, FirstRangoIcsConSensor));
    }
    assert SeriesSentTo(log, Target(HojaIcs, FirstRangoIcsSinSensor)) == Drop(sin, firstSinCount) by {
      SuccessLogSeriesSentTo(values, con, sin, firstConCount, firstSinCount, secondConCount, secondSinCount, Target(HojaIcs, FirstRangoIcsSinSensor));
      IcsBlockSentTo(con, sin, FirstRangoIcsConSensor, FirstRangoIcsSinSensor, firstConCount, firstSinCount, Target(HojaIcs, FirstRangoIcsSinSensor));
      IcsBlockSentTo(con, sin, SecondRangoIcsConSensor, SecondRangoIcsSinSensor, secondConCount, secondSinCount, Target(HojaIcs, FirstRangoIcsSinSensor));
    }
    assert SeriesSentTo(log, Target(HojaIcs, SecondRangoIcsConSensor)) == Drop(con, secondConCount) by {
      SuccessLogSeriesSentTo(values, con, sin, firstConCount, firstSinCount, secondConCount, secondSinCount, Target(HojaIcs, SecondRangoIcsConSensor));
      IcsBlockSentTo(con, sin, FirstRangoIcsConSensor, FirstRangoIcsSinSensor, firstConCount, firstSinCount, Target(HojaIcs, SecondRangoIcsConSensor));
      IcsBlockSentTo(con, sin, SecondRangoIcsConSensor, SecondRangoIcsSinSensor, secondConCount, secondSinCount, Target(HojaIcs, SecondRangoIcsConSensor));
    }
    assert SeriesSentTo(log, Target(HojaIcs, SecondRangoIcsSinSensor)) == Drop(sin, secondSinCount) by {
      SuccessLogSeriesSentTo(values, con, sin, firstConCount, firstSinCount, secondConCount, secondSinCount, Target(HojaIcs, SecondRangoIcsSinSensor));
      IcsBlockSentTo(con, sin, FirstRangoIcsConSensor, FirstRangoIcsSinSensor, firstConCount, firstSinCount, Target(HojaIcs, SecondRangoIcsSinSensor));
      IcsBlockSentTo(con, sin, SecondRangoIcsConSensor, SecondRangoIcsSinSensor, secondConCount, secondSinCount, Target(HojaIcs, SecondRangoIcsSinSensor));
    }
  }

  /** A successful run with new rows sends each survey sheet exactly the new CSV rows
      that satisfy its condition, in CSV order. */
  lemma ScriptRoutesRows(csv: seq<Row>, rowCount: Option<nat>,
                   firstConCount: Option<nat>, firstSinCount: Option<nat>,
                   secondConCount: Option<nat>, secondSinCount: Option<nat>,
                   conDir: Directory, sinDir: Directory)
    requires Drop(csv, rowCount) != []
    requires Script(csv, rowCount, firstConCount, firstSinCount, secondConCount, secondSinCount, conDir, sinDir).failure.None?
    ensures IcsList(conDir).Ok? && IcsList(sinDir).Ok?
    ensures var log := Script(csv, rowCount, firstConCount, firstSinCount, secondConCount, secondSinCount, conDir, sinDir).log;
      var values, con, sin := Drop(csv, rowCount), IcsList(conDir).value, IcsList(sinDir).value;
      && RowsSentTo(log, Target(HojaTodos, Rango)) == values
      && RowsSentTo(log, Target(HojaConSensor, Rango)) == Filter(values, SensorPresent)
      && RowsSentTo(log, Target(HojaSinSensor, Rango)) == Filter(values, SensorAbsent)
      && RowsSentTo(log, Target(HojaTerapeutas, Rango)) == Filter(values, Therapist)
  {
    ScriptSuccessLog(csv, rowCount, firstConCount, firstSinCount, secondConCount, secondSinCount, conDir, sinDir);
    SuccessLogRoutesRows(Drop(csv, rowCount), IcsList(conDir).value, IcsList(sinDir).value,
                         firstConCount, firstSinCount, secondConCount, secondSinCount);
  }

  /** A successful run with new rows sends each IC range exactly the windows past the
      row count read for it before its block. */
  lemma ScriptRoutesWindows(csv: seq<Row>, rowCount: Option<nat>,
                   firstConCount: Option<nat>, firstSinCount: Option<nat>,
                   secondConCount: Option<nat>, secondSinCount: Option<nat>,
                   conDir: Directory, sinDir: Directory)
    requires Drop(csv, rowCount) != []
    requires Script(csv, rowCount, firstConCount, firstSinCount, secondConCount, secondSinCount, conDir, sinDir).failure.None?
    ensures IcsList(conDir).Ok? && IcsList(sinDir).Ok?
    ensures var log := Script(csv, rowCount, firstConCount, firstSinCount, secondConCount, secondSinCount, conDir, sinDir).log;
      var values, con, sin := Drop(csv, rowCount), IcsList(conDir).value, IcsList(sinDir).value;
      && SeriesSentTo(log, Target(HojaIcs, FirstRangoIcsConSensor)) == Drop(con, firstConCount)
      && SeriesSentTo(log, Target(HojaIcs, FirstRangoIcsSinSensor)) == Drop(sin, firstSinCount)
      && SeriesSentTo(log, Target(HojaIcs, SecondRangoIcsConSensor)) == Drop(con, secondConCount)
      && SeriesSentTo(log, Target(HojaIcs, SecondRangoIcsSinSensor)) == Drop(sin, secondSinCount)
  {
    ScriptSuccessLog(csv, rowCount, firstConCount, firstSinCount, secondConCount, secondSinCount, conDir, sinDir);
    SuccessLogRoutesWindows(Drop(csv, rowCount), IcsList(conDir).value, IcsList(sinDir).value,
                            firstConCount, firstSinCount, secondConCount, secondSinCount);
  }
}
