/**
  The decisions made inside the two render functions of app.py: the report's tier and dust status
  (`show_survival_report`, app.py:21-75) and the briefing of `show_congestion_chart` (app.py:78-118):
  the daily series, its worst and best slots, and the golden time within three hours.
  What is drawn on screen is left out; only which tier, status and slots are chosen is modelled.
 */
module Dashboard {

  import opened Wrappers
  import opened Text
  import opened Stations
  import opened Congestion
  import opened AirQuality
  import opened Discomfort
  import opened Golden

  /** The three report tiers: 위험 (boarding discouraged), 주의 (caution), 쾌적 (comfortable). */
  datatype Tier = Danger | Caution | Comfortable

  /** Score 55 and above is danger, 35 up to 55 caution, everything below comfortable. */
  function TierOf(score: real): (t: Tier)
    ensures t == Danger <==> score >= 55.0
    ensures t == Caution <==> 35.0 <= score < 55.0
    ensures t == Comfortable <==> score < 35.0
  {
    if score >= 55.0 then Danger else if score >= 35.0 then Caution else Comfortable
  }

  /** Both sentinels of the congestion query, -1 (no data) and 0 (service ended), read as comfortable. */
  lemma SentinelsReadComfortable(t: Table, station: string, weekday: nat, hour: nat, minute: nat)
    requires weekday <= 6 && Rectangular(t)
    requires CurrentCongestion(t, station, weekday, hour, minute).basis == NoData ||
             SlotLabel(hour, minute) !in t.columns
    ensures TierOf(CurrentCongestion(t, station, weekday, hour, minute).value) == Comfortable
  {
    var r := CurrentCongestion(t, station, weekday, hour, minute);
    var day, slot := DayType(weekday), SlotLabel(hour, minute);
    SentinelsDistinct(day, slot);
  }

  function Rank(t: Tier): nat {
    match t
    case Comfortable => 0
    case Caution => 1
    case Danger => 2
  }

  /** A more crowded train never gets a milder tier. */
  lemma TierMonotone(s1: real, s2: real)
    requires s1 <= s2
    ensures Rank(TierOf(s1)) <= Rank(TierOf(s2))
  {
  }

  /** The PM10 status: 좋음, 보통 or 나쁨. */
  datatype AirStatus = Good | Normal | Poor

  /** 81 and above is bad, 30 and below good, anything between normal. */
  function Pm10Status(pm10: real): (s: AirStatus)
    ensures s == Poor <==> pm10 >= 81.0
    ensures s == Good <==> pm10 <= 30.0
    ensures s == Normal <==> 30.0 < pm10 < 81.0
  {
    if pm10 >= 81.0 then Poor else if pm10 <= 30.0 then Good else Normal
  }

  datatype AirReading = AirReading(pm10: real, status: AirStatus)

  /**
    The dust reading of the report: the first row's value in `column`, classified; 0 and 보통 when the
    frame is empty or has no such column. A column that is present holds numbers (`float()` of it succeeds).
   */
  function ReadAir(f: AirFrame, column: string): (r: AirReading)
    requires |f.rows| > 0 && column in f.columns ==> column in f.rows[0]
    ensures !(|f.rows| > 0 && column in f.columns) ==> r == AirReading(0.0, Normal)
    ensures |f.rows| > 0 && column in f.columns ==>
      r.pm10 == f.rows[0][column] && r.status == Pm10Status(r.pm10)
  {
    if |f.rows| > 0 && column in f.columns then
      var v := f.rows[0][column];
      AirReading(v, Pm10Status(v))
    else AirReading(0.0, Normal)
  }

  /**
    On the frames that the air-quality query returns, app.py reads the PM value of the first site, in the
    service's order, whose name contains the district term; with no such site it reads (0, 보통).
   */
  lemma ReadsFirstSite(ms: seq<Measurement>, station: string)
    ensures var f, target := GuAirQuality(ms, station), LookupDistrict(station);
      && (f.rows == [] ==> ReadAir(f, Pm10Column) == AirReading(0.0, Normal))
      && (f.rows != [] ==> exists k :: && 0 <= k < |ms| && Contains(ms[k].site, target)
                                       && (forall j :: 0 <= j < k ==> !Contains(ms[j].site, target))
                                       && ReadAir(f, Pm10Column) == AirReading(ms[k].pm, Pm10Status(ms[k].pm)))
  {
    var f := GuAirQuality(ms, station);
    if f.rows != [] {
      ReadsFirstOf(ms, LookupDistrict(station), f);
    }
  }

  /** A frame holding one row per selected site, in order, is read at the first selected site. */
  lemma ReadsFirstOf(ms: seq<Measurement>, target: string, f: AirFrame)
    requires f.rows != [] && f.columns == RenamedColumns
    requires var sites := SitesContaining(ms, target);
      |f.rows| == |sites| && forall i :: 0 <= i < |sites| ==> f.rows[i] == ToRow(sites[i])
    ensures exists k :: && 0 <= k < |ms| && Contains(ms[k].site, target)
                        && (forall j :: 0 <= j < k ==> !Contains(ms[j].site, target))
                        && ReadAir(f, Pm10Column) == AirReading(ms[k].pm, Pm10Status(ms[k].pm))
  {
    var sites := SitesContaining(ms, target);
    assert Pm10Column in f.columns && f.rows[0] == ToRow(sites[0]);
    FirstSelected(ms, target);
    var k :| && 0 <= k < |ms| && Contains(ms[k].site, target) && sites[0] == ms[k]
             && forall j :: 0 <= j < k ==> !Contains(ms[j].site, target);
    assert ReadAir(f, Pm10Column) == AirReading(ms[k].pm, Pm10Status(ms[k].pm));
  }

  /** What the report selects: the tier, the dust reading and the discomfort reading. */
  datatype Report = Report(tier: Tier, air: AirReading, weather: DiReading)

  function SurvivalReport(score: real, f: AirFrame, temp: Option<real>, humi: Option<real>): (r: Report)
    requires |f.rows| > 0 && Pm10Column in f.columns ==> Pm10Column in f.rows[0]
    ensures r.tier == Danger <==> score >= 55.0
    ensures r.tier == Caution <==> 35.0 <= score < 55.0
    ensures r.tier == Comfortable <==> score < 35.0
    ensures !(|f.rows| > 0 && Pm10Column in f.columns) ==> r.air == AirReading(0.0, Normal)
    ensures |f.rows| > 0 && Pm10Column in f.columns ==>
      r.air.pm10 == f.rows[0][Pm10Column] && r.air.status == Pm10Status(r.air.pm10)
    ensures temp.None? || humi.None? ==> r.weather == DiReading(0.0, NoInfo)
    ensures temp.Some? && humi.Some? ==>
      r.weather.value == Index(temp.value, humi.value) && r.weather.status == Label(BandOf(r.weather.value))
  {
    Report(TierOf(score), ReadAir(f, Pm10Column), DiscomfortIndex(temp, humi))
  }

  /**
    The report for the readings the app gathers: the congestion query, the air-quality query and the fixed
    weather of logic.py. Both congestion sentinels give the comfortable tier; the dust reading is that of
    the first matching site (or (0, 보통)); the weather always reads pleasant.
   */
  lemma ReportOnQueries(t: Table, ms: seq<Measurement>, station: string, weekday: nat, hour: nat, minute: nat)
    requires weekday <= 6 && Rectangular(t)
    ensures var c := CurrentCongestion(t, station, weekday, hour, minute);
      var f, target := GuAirQuality(ms, station), LookupDistrict(station);
      var r := SurvivalReport(c.value, f, Some(-5.2), Some(35.0));
      && (c.basis == NoData || SlotLabel(hour, minute) !in t.columns ==> r.tier == Comfortable)
      && (f.rows == [] ==> r.air == AirReading(0.0, Normal))
      && (f.rows != [] ==> exists k :: && 0 <= k < |ms| && Contains(ms[k].site, target)
                                       && (forall j :: 0 <= j < k ==> !Contains(ms[j].site, target))
                                       && r.air == AirReading(ms[k].pm, Pm10Status(ms[k].pm)))
      && r.weather == DiReading(35.2812, Label(Pleasant))
  {
    var c := CurrentCongestion(t, station, weekday, hour, minute);
    if c.basis == NoData || SlotLabel(hour, minute) !in t.columns {
      SentinelsReadComfortable(t, station, weekday, hour, minute);
    }
    ReadsFirstSite(ms, station);
    StubWeatherIsPleasant();
  }

  /** `[c for c in df.columns if "시" in c and "분" in c]`: the half-hour columns, in table order. */
  function TimeColumns(columns: seq<string>): (r: seq<string>)
    ensures forall c :: c in r <==> c in columns && IsTimeColumn(c)
    ensures |r| <= |columns|
  {
    if columns == [] then []
    else (if IsTimeColumn(columns[0]) then [columns[0]] else []) + TimeColumns(columns[1..])
  }

  /** A time column is kept as often as it occurs; every other column is dropped. */
  lemma {:induction false} TimeColumnsCount(columns: seq<string>, c: string)
    ensures multiset(TimeColumns(columns))[c] == if IsTimeColumn(c) then multiset(columns)[c] else 0
    decreases |columns|
  {
    if columns != [] {
      assert columns == [columns[0]] + columns[1..];
      TimeColumnsCount(columns[1..], c);
    }
  }

  /** The comprehension keeps the table's column order: the time columns of `a + b` are those of `a`, then of `b`. */
  lemma {:induction false} TimeColumnsAppend(a: seq<string>, b: seq<string>)
    ensures TimeColumns(a + b) == TimeColumns(a) + TimeColumns(b)
    decreases |a|
  {
    if a == [] {
      assert a + b == b;
    } else {
      assert (a + b)[1..] == a[1..] + b;
      TimeColumnsAppend(a[1..], b);
    }
  }

  /** The series over `cols`: one slot per column, in order, holding the column's largest value over `rows`. */
  predicate IsSeries(rows: seq<Row>, cols: seq<string>, s: seq<Slot>) {
    |s| == |cols| && forall i :: 0 <= i < |s| ==> s[i].column == cols[i] && IsColumnMax(rows, cols[i], s[i].value)
  }

  /**
    `rows[time_cols].max()` for the rows of the station and day type: per half-hour column, in column
    order, the largest value over the matching rows. `None` when no row matches (the function returns early).
   */
  function DailySeries(t: Table, station: string, weekday: nat): (r: Option<seq<Slot>>)
    requires weekday <= 6 && Rectangular(t)
    ensures var rows := Matching(t.rows, Normalize(station), DayType(weekday));
      && (r.None? <==> rows == [])
      && (r.Some? ==> IsSeries(rows, TimeColumns(t.columns), r.value))
  {
    var rows := Matching(t.rows, Normalize(station), DayType(weekday));
    if rows == [] then None
    else
      var cols := TimeColumns(t.columns);
      assert forall c, row :: c in cols && row in rows ==> c in row.values by {
        forall c, row | c in cols && row in rows ensures c in row.values {
          var i :| 0 <= i < |t.rows| && t.rows[i] == row;
        }
      }
      Some(SeriesOver(rows, cols))
  }

  /** One slot per column of `cols`, holding that column's maximum over `rows`. */
  function SeriesOver(rows: seq<Row>, cols: seq<string>): (s: seq<Slot>)
    requires rows != []
    requires forall c, row :: c in cols && row in rows ==> c in row.values
    ensures IsSeries(rows, cols, s)
  {
    assert forall i :: 0 <= i < |cols| ==> cols[i] in cols;
    seq(|cols|, i requires 0 <= i < |cols| => Slot(cols[i], MaxOver(rows, cols[i])))
  }

  /** The current-slot value of the congestion query is the daily series' value at that slot. */
  lemma CurrentIsSeriesValue(t: Table, station: string, weekday: nat, hour: nat, minute: nat)
    requires weekday <= 6 && Rectangular(t)
    requires SlotLabel(hour, minute) in t.columns
    requires DailySeries(t, station, weekday).Some?
    ensures var s := DailySeries(t, station, weekday).value;
      exists i :: 0 <= i < |s| && s[i] == Slot(SlotLabel(hour, minute), CurrentCongestion(t, station, weekday, hour, minute).value)
  {
    var slot := SlotLabel(hour, minute);
    var cols := TimeColumns(t.columns);
    var s := DailySeries(t, station, weekday).value;
    assert slot in cols;
    var i :| 0 <= i < |cols| && cols[i] == slot;
    var rows := Matching(t.rows, Normalize(station), DayType(weekday));
    var v := CurrentCongestion(t, station, weekday, hour, minute).value;
    assert IsColumnMax(rows, slot, s[i].value) && IsColumnMax(rows, slot, v);
    var a :| a in rows && slot in a.values && a.values[slot] == s[i].value;
    var b :| b in rows && slot in b.values && b.values[slot] == v;
    assert s[i].value <= v && v <= s[i].value;
  }

  /** Position `k` holds the largest value, and every earlier position a strictly smaller one. */
  predicate IsFirstMax(s: seq<Slot>, k: int) {
    && 0 <= k < |s|
    && (forall j :: 0 <= j < |s| ==> s[j].value <= s[k].value)
    && (forall j :: 0 <= j < k ==> s[j].value < s[k].value)
  }

  /** Position `k` holds the least value, and every earlier position a strictly larger one. */
  predicate IsFirstMin(s: seq<Slot>, k: int) {
    && 0 <= k < |s|
    && (forall j :: 0 <= j < |s| ==> s[k].value <= s[j].value)
    && (forall j :: 0 <= j < k ==> s[k].value < s[j].value)
  }

  /** `idxmax`: the first position of the largest value. */
  function FirstMaxIndex(s: seq<Slot>): (k: nat)
    requires s != []
    ensures IsFirstMax(s, k)
  {
    if |s| == 1 then 0
    else
      var k := FirstMaxIndex(s[..|s| - 1]);
      assert forall j :: 0 <= j < |s| - 1 ==> s[..|s| - 1][j] == s[j];
      if s[|s| - 1].value > s[k].value then |s| - 1 else k
  }

  /** `idxmin`: the first position of the least value. */
  function FirstMinIndex(s: seq<Slot>): (k: nat)
    requires s != []
    ensures IsFirstMin(s, k)
  {
    if |s| == 1 then 0
    else
      var k := FirstMinIndex(s[..|s| - 1]);
      assert forall j :: 0 <= j < |s| - 1 ==> s[..|s| - 1][j] == s[j];
      if s[|s| - 1].value < s[k].value then |s| - 1 else k
  }

  /**
    The golden-time loop of app.py: walks the columns in order, skips those whose hour does not parse,
    reads hour 0 as 24, keeps those within three hours of now, and replaces the best only on a strict
    improvement, starting from ("-", 100).
   */
  method GoldenWindow(s: seq<Slot>, currentHour: nat) returns (time: string, val: real)
    ensures val <= Ceiling
    ensures GoldenResult(s, currentHour, Within(3), Slot(time, val))
  {
    var limitHour := currentHour + 3;
    time, val := NoSlot, Ceiling;
    ghost var at := -1;
    var k := 0;
    while k < |s|
      invariant 0 <= k <= |s|
      invariant -1 <= at < k
      invariant at == -1 ==> time == NoSlot && val == Ceiling && NoneBelow(s, k, currentHour, Within(3))
      invariant at >= 0 ==> IsGolden(s, k, currentHour, Within(3), at) && time == s[at].column && val == s[at].value
    {
      var parsed := ParseNat(PrefixBefore(s[k].column, '시'));
      if parsed.Some? {
        var hour := parsed.value;
        if hour == 0 {
          hour := 24;
        }
        if currentHour <= hour <= limitHour {
          var v := s[k].value;
          if v < val {
            time, val := s[k].column, v;
            at := k;
          }
        }
      }
      k := k + 1;
    }
  }

  /** For example: 9시00분 = 40, 10시00분 = 20, 11시00분 = 60 at 9 o'clock gives 10시00분 at 20. */
  lemma NineOClockExample()
    ensures var s := [Slot(SlotLabel(9, 0), 40.0), Slot(SlotLabel(10, 0), 20.0), Slot(SlotLabel(11, 0), 60.0)];
      GoldenResult(s, 9, Within(3), s[1])
  {
    var c9, c10, c11 := SlotLabel(9, 0), SlotLabel(10, 0), SlotLabel(11, 0);
    SlotLabelHour(9, 0);
    SlotLabelHour(10, 0);
    SlotLabelHour(11, 0);
    ThreeHoursExample(c9, c10, c11);
  }

  lemma ThreeHoursExample(c9: string, c10: string, c11: string)
    requires LabelHour(c9) == Some(9) && LabelHour(c10) == Some(10) && LabelHour(c11) == Some(11)
    ensures var s := [Slot(c9, 40.0), Slot(c10, 20.0), Slot(c11, 60.0)];
      GoldenResult(s, 9, Within(3), s[1])
  {
    var s := [Slot(c9, 40.0), Slot(c10, 20.0), Slot(c11, 60.0)];
    assert Qualifies(s[0].column, 9, Within(3));
    assert Qualifies(s[1].column, 9, Within(3));
    assert Qualifies(s[2].column, 9, Within(3));
    assert IsGolden(s, 3, 9, Within(3), 1);
  }

  /** The column of that example is the text "10시00분". */
  lemma TenOClockColumn()
    ensures SlotLabel(10, 0) == "10시00분"
  {
    assert NatToDecimal(10) == NatToDecimal(1) + [DigitChar(0)];
  }

  /** What the briefing shows: nothing, a crash of `idxmax` on an empty series, or the three cards. */
  datatype Chart = Skipped | Raises | Briefing(worst: Slot, best: Slot, golden: Slot)

  /**
    The decision part of `show_congestion_chart`: the worst and best slots are the first extremes in column
    order; the golden slot is the loop's result.
   */
  method CongestionChart(t: Table, station: string, weekday: nat, currentHour: nat) returns (c: Chart)
    requires weekday <= 6 && Rectangular(t)
    ensures c.Skipped? <==> DailySeries(t, station, weekday).None?
    ensures c.Raises? <==> DailySeries(t, station, weekday) == Some([])
    ensures c.Briefing? ==> var s := DailySeries(t, station, weekday).value;
      && (exists i :: IsFirstMax(s, i) && c.worst == s[i])
      && (exists i :: IsFirstMin(s, i) && c.best == s[i])
      && GoldenResult(s, currentHour, Within(3), c.golden)
  {
    ghost var rows := Matching(t.rows, Normalize(station), DayType(weekday));
    var series := DailySeries(t, station, weekday);
    if series.None? {
      return Skipped;
    }
    var s := series.value;
    if s == [] {
      return Raises;
    }
    var worst, best := FirstMaxIndex(s), FirstMinIndex(s);
    var time, val := GoldenWindow(s, currentHour);
    c := Briefing(s[worst], s[best], Slot(time, val));
    assert IsFirstMax(s, worst) && IsFirstMin(s, best);
  }
}
