/** Per-subject session-history documents and the window of recent rounds read
    from them. A directory holds one document per subject, named `1_DataNN.xml`. */
module History {
  import opened Wrappers
  import opened Sequences
  import opened Text

  /** A value read with `float()`; the model never computes with it. */
  type Metric = real

  datatype MetricKind = Dificultad | Velocidad | Intervalo | Rango

  /** The order of the four lists `_get_ics` returns. */
  const Kinds: seq<MetricKind> := [Dificultad, Velocidad, Intervalo, Rango]

  /** One child of `HistorialPartidas`: one round of the game. */
  datatype Entry = Entry(dificultad: Metric, velocidad: Metric, intervalo: Metric, rango: Metric)
  {
    function Get(m: MetricKind): Metric
    {
      match m
      case Dificultad => dificultad
      case Velocidad => velocidad
      case Intervalo => intervalo
      case Rango => rango
    }
  }

  /** A file as `ET.parse` sees it: XML whose root may or may not hold the
      `HistorialPartidas` container, or something that does not parse. */
  datatype Document = Parsed(historial: Option<seq<Entry>>) | Unparsable

  /** Directory listing: every entry name with its content. */
  type Directory = map<string, Document>

  /** The four lists `_get_last_ic` returns, in the order ics, speeds, interval, range. */
  datatype Window = Window(dificultad: seq<Metric>, velocidad: seq<Metric>, intervalo: seq<Metric>, rango: seq<Metric>)
  {
    function Get(m: MetricKind): seq<Metric>
    {
      match m
      case Dificultad => dificultad
      case Velocidad => velocidad
      case Intervalo => intervalo
      case Rango => rango
    }
  }

  /** `num_rondas`'s default, and the fixed window of the script. */
  const DefaultRounds: nat := 10

  /** `f"1_Data{i:02d}.xml"` */
  function FileName(i: nat): (r: string)
    ensures |r| >= 12 && r[..6] == "1_Data" && r[|r| - 4..] == ".xml"
  {
    "1_Data" + Pad2(i) + ".xml"
  }

  /** Different indices name different files, so no subject is read twice. */
  lemma FileNameInjective(i: nat, j: nat)
    requires FileName(i) == FileName(j)
    ensures i == j
  {
    var a, b := FileName(i), FileName(j);
    assert a[6..|a| - 4] == Pad2(i);
    assert b[6..|b| - 4] == Pad2(j);
    Pad2RoundTrip(i);
    Pad2RoundTrip(j);
  }

  lemma FileNameExamples()
    ensures FileName(1) == "1_Data01.xml"
    ensures FileName(3) == "1_Data03.xml"
    ensures FileName(12) == "1_Data12.xml"
  {
    assert Decimal(12) == "12";
  }

  /** `[float(p.find(m).text) for p in entries]` */
  function Column(es: seq<Entry>, m: MetricKind): (r: seq<Metric>)
    ensures |r| == |es|
  {
    seq(|es|, k requires 0 <= k < |es| => es[k].Get(m))
  }

  /** The first `rounds` entries in document order, each metric list then reversed. */
  function WindowOf(es: seq<Entry>, rounds: nat): Window
  {
    var last := Take(es, rounds);
    Window(Reversed(Column(last, Dificultad)), Reversed(Column(last, Velocidad)),
           Reversed(Column(last, Intervalo)), Reversed(Column(last, Rango)))
  }

  /** Each list of the window has `min(rounds, |es|)` values: the metric of the first
      `rounds` entries back to front, so the last value is the first entry's. */
  lemma WindowShape(es: seq<Entry>, rounds: nat, m: MetricKind)
    ensures var w := WindowOf(es, rounds).Get(m);
      && |w| == Min(rounds, |es|)
      && forall k :: 0 <= k < |w| ==> w[k] == es[|w| - 1 - k].Get(m)
  {
    var last := Take(es, rounds);
    var col := Column(last, m);
    ReversedLength(col);
    forall k | 0 <= k < |col| ensures Reversed(col)[k] == es[|col| - 1 - k].Get(m) {
      ReversedAt(col, k);
    }
  }

  /** `_get_last_ic(file_path, rounds)` on a file of the directory: a file that is missing,
      does not parse or has no `HistorialPartidas` raises. */
  function LastIc(dir: Directory, name: string, rounds: nat): Result<Window>
  {
    if name !in dir then Err(FileNotFound(name))
    else match dir[name]
      case Unparsable => Err(XmlParseError(name))
      case Parsed(None) => Err(HistoryMissing(name))
      case Parsed(Some(es)) => Ok(WindowOf(es, rounds))
  }

  /** The windows of files `1_Data01.xml` .. `1_Data{count}.xml`, in index order; the
      first file that raises ends the scan with its error. */
  function Subjects(dir: Directory, count: nat, rounds: nat): Result<seq<Window>>
  {
    if count == 0 then Ok([])
    else match Subjects(dir, count - 1, rounds)
      case Err(e) => Err(e)
      case Ok(ws) =>
        match LastIc(dir, FileName(count), rounds)
        case Err(e) => Err(e)
        case Ok(w) => Ok(ws + [w])
  }

  lemma {:induction false} SubjectsErrorStays(dir: Directory, i: nat, j: nat, rounds: nat)
    requires i <= j && Subjects(dir, i, rounds).Err?
    ensures Subjects(dir, j, rounds) == Subjects(dir, i, rounds)
    decreases j
  {
    if i < j {
      SubjectsErrorStays(dir, i, j - 1, rounds);
    }
  }

  /** The scan succeeds exactly when every file 1..count reads. */
  lemma {:induction false} SubjectsOkIff(dir: Directory, count: nat, rounds: nat)
    ensures Subjects(dir, count, rounds).Ok? <==>
      forall i :: 1 <= i <= count ==> LastIc(dir, FileName(i), rounds).Ok?
  {
    if count > 0 {
      SubjectsOkIff(dir, count - 1, rounds);
    }
  }

  /** A successful scan has one window per index, window k being that of `FileName(k + 1)`. */
  lemma {:induction false} SubjectsShape(dir: Directory, count: nat, rounds: nat)
    requires Subjects(dir, count, rounds).Ok?
    ensures |Subjects(dir, count, rounds).value| == count
    ensures forall i :: 1 <= i <= count ==> LastIc(dir, FileName(i), rounds).Ok?
    ensures forall k :: 0 <= k < count ==>
      Subjects(dir, count, rounds).value[k] == LastIc(dir, FileName(k + 1), rounds).value
  {
    if count > 0 {
      var prev := Subjects(dir, count - 1, rounds);
      var last := LastIc(dir, FileName(count), rounds);
      assert prev.Ok? && last.Ok?;
      SubjectsShape(dir, count - 1, rounds);
      var ws := prev.value + [last.value];
      assert Subjects(dir, count, rounds) == Ok(ws);
      forall k | 0 <= k < count
        ensures Subjects(dir, count, rounds).value[k] == LastIc(dir, FileName(k + 1), rounds).value
      {
        if k < count - 1 {
          assert ws[k] == prev.value[k];
        } else {
          assert k + 1 == count;
        }
      }
    }
  }

  /** Both of the above. */
  lemma SubjectsOk(dir: Directory, count: nat, rounds: nat)
    ensures Subjects(dir, count, rounds).Ok? <==>
      forall i :: 1 <= i <= count ==> LastIc(dir, FileName(i), rounds).Ok?
    ensures Subjects(dir, count, rounds).Ok? ==>
      && |Subjects(dir, count, rounds).value| == count
      && forall k :: 0 <= k < count ==>
           Subjects(dir, count, rounds).value[k] == LastIc(dir, FileName(k + 1), rounds).value
  {
    SubjectsOkIff(dir, count, rounds);
    if Subjects(dir, count, rounds).Ok? {
      SubjectsShape(dir, count, rounds);
    }
  }

  /** A failed scan reports the error of the lowest index that does not read. */
  lemma {:induction false} SubjectsFirstError(dir: Directory, count: nat, rounds: nat)
    requires Subjects(dir, count, rounds).Err?
    ensures exists i :: FirstFailure(dir, count, rounds, i)
  {
    if Subjects(dir, count - 1, rounds).Err? {
      SubjectsFirstError(dir, count - 1, rounds);
      var i :| FirstFailure(dir, count - 1, rounds, i);
      assert FirstFailure(dir, count, rounds, i);
    } else {
      SubjectsOk(dir, count - 1, rounds);
      assert FirstFailure(dir, count, rounds, count);
    }
  }

  /** File `i` is the first of 1..count that raises, and the scan fails with its error. */
  ghost predicate FirstFailure(dir: Directory, count: nat, rounds: nat, i: nat)
    requires Subjects(dir, count, rounds).Err?
  {
    && 1 <= i <= count
    && LastIc(dir, FileName(i), rounds).Err?
    && (forall j :: 1 <= j < i ==> LastIc(dir, FileName(j), rounds).Ok?)
    && Subjects(dir, count, rounds).error == LastIc(dir, FileName(i), rounds).error
  }

  /** The loop does not stop at a gap: with files 01, 02 and 04 the directory has three
      entries, so index 3 is read and raises. */
  lemma GapRaises(e: Document)
    requires e.Parsed? && e.historial.Some?
    ensures var dir := map[FileName(1) := e, FileName(2) := e, FileName(4) := e];
      && |dir| == 3
      && Subjects(dir, |dir|, DefaultRounds) == Err(FileNotFound("1_Data03.xml"))
  {
    FileNameExamples();
    assert Decimal(4) == "4";
    var dir := map[FileName(1) := e, FileName(2) := e, FileName(4) := e];
    assert FileName(1) != FileName(2) && FileName(1) != FileName(4) && FileName(2) != FileName(4) by {
      assert FileName(1)[7] == '1' && FileName(2)[7] == '2' && FileName(4)[7] == '4';
    }
    assert dir.Keys == {FileName(1), FileName(2), FileName(4)};
    assert FileName(3) !in dir by {
      assert FileName(3)[7] == '3';
    }
    assert Subjects(dir, 1, DefaultRounds).Ok?;
    assert Subjects(dir, 2, DefaultRounds).Ok?;
    assert LastIc(dir, FileName(3), DefaultRounds) == Err(FileNotFound("1_Data03.xml"));
  }

  /** One metric's list across subjects: `[w.m for w in subjects]`. It has the shape of
      `Column` one level up: `Column` picks a value out of each history entry, this picks
      a whole list out of each subject's window. */
  function Project(ws: seq<Window>, m: MetricKind): (r: seq<seq<Metric>>)
    ensures |r| == |ws|
  {
    seq(|ws|, k requires 0 <= k < |ws| => ws[k].Get(m))
  }

  /** The four lists `[ics, speed, interval, rango]` built from the subjects' windows. */
  function Columns(ws: seq<Window>): (r: seq<seq<seq<Metric>>>)
    ensures |r| == 4
    ensures forall j :: 0 <= j < 4 ==> r[j] == Project(ws, Kinds[j])
  {
    [Project(ws, Dificultad), Project(ws, Velocidad), Project(ws, Intervalo), Project(ws, Rango)]
  }
}
