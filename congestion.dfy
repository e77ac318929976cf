/**
  The congestion statistics table and the current-slot query `get_real_congestion` (logic.py:42-61;
  backup/app_backup.py:38-57 is the same code). The table and the clock are parameters.
 */
module Congestion {

  import opened Text
  import opened Stations

  /** One row of the statistics: origin station (`출발역`), day type (`요일구분`), and a value per slot column. */
  datatype Row = Row(station: string, dayType: string, values: map<string, real>)

  /** The loaded table: its column names in file order, and its rows. */
  datatype Table = Table(columns: seq<string>, rows: seq<Row>)

  /** A half-hour column such as "7시30분": its name contains both 시 and 분. */
  predicate IsTimeColumn(c: string) {
    '시' in c && '분' in c
  }

  /** A data frame is rectangular: each row has a value under every half-hour column. */
  predicate Covers(row: Row, columns: seq<string>) {
    forall c :: c in columns && IsTimeColumn(c) ==> c in row.values
  }

  predicate Rectangular(t: Table) {
    forall i :: 0 <= i < |t.rows| ==> Covers(t.rows[i], t.columns)
  }

  const Weekday := "평일"
  const Saturday := "토요일"
  const Sunday := "일요일"

  /** The day type of `datetime.weekday()` (0 is Monday). */
  function DayType(weekday: nat): (day: string)
    requires weekday <= 6
    ensures day == Weekday <==> weekday <= 4
    ensures day == Saturday <==> weekday == 5
    ensures day == Sunday <==> weekday == 6
  {
    if weekday <= 4 then Weekday else if weekday == 5 then Saturday else Sunday
  }

  /** The column of the current half hour: `f"{hour}시00분"` before minute 30, `f"{hour}시30분"` from it. */
  function SlotLabel(hour: nat, minute: nat): (col: string)
    ensures IsTimeColumn(col)
  {
    var col := NatToDecimal(hour) + (if minute < 30 then "시00분" else "시30분");
    assert col[|NatToDecimal(hour)|] == '시' && col[|col| - 1] == '분';
    col
  }

  /** Two clock readings in the same hour share a slot exactly when both are in the same half. */
  lemma SlotHalves(hour: nat, m1: nat, m2: nat)
    ensures SlotLabel(hour, m1) == SlotLabel(hour, m2) <==> (m1 < 30 <==> m2 < 30)
  {
    var n := |NatToDecimal(hour)|;
    if (m1 < 30) != (m2 < 30) {
      assert SlotLabel(hour, m1)[n + 1] != SlotLabel(hour, m2)[n + 1];
    }
  }

  /** The rows of one station on one day type (`df[(df['출발역'] == clean) & (df['요일구분'] == day)]`). */
  function Matching(rows: seq<Row>, station: string, day: string): (m: seq<Row>)
    ensures forall r :: r in m <==> r in rows && r.station == station && r.dayType == day
    ensures |m| <= |rows|
  {
    if rows == [] then []
    else (if rows[0].station == station && rows[0].dayType == day then [rows[0]] else []) + Matching(rows[1..], station, day)
  }

  /** `v` is the largest value in column `col` over `rows`: no row exceeds it, and some row attains it. */
  predicate IsColumnMax(rows: seq<Row>, col: string, v: real) {
    && (forall r :: r in rows ==> col in r.values && r.values[col] <= v)
    && (exists r :: r in rows && col in r.values && r.values[col] == v)
  }

  /** `rows[col].max()`: the largest value of the column over the given (non-empty) rows. */
  function MaxOver(rows: seq<Row>, col: string): (v: real)
    requires rows != []
    requires forall r :: r in rows ==> col in r.values
    ensures IsColumnMax(rows, col, v)
  {
    if |rows| == 1 then rows[0].values[col]
    else
      var rest := MaxOver(rows[1..], col);
      assert forall r :: r in rows ==> r == rows[0] || r in rows[1..];
      if rows[0].values[col] >= rest then rows[0].values[col] else rest
  }

  /** The pair `(value, basis text)` that `get_real_congestion` returns. */
  datatype Reading = Reading(value: real, basis: string)

  const NoData := "데이터 없음"

  function ServiceEndedBasis(day: string, slot: string): string {
    day + " " + slot + " (운행종료)"
  }

  function MeasuredBasis(day: string, slot: string): string {
    day + " " + slot + " 기준"
  }

  /**
    The congestion of a station now. The slot check comes first and ignores the station: a slot that is
    not a column gives the 0 sentinel; no matching rows give the -1 sentinel; otherwise the value is the
    largest over the matching rows (one per direction) in the slot's column.
   */
  function CurrentCongestion(t: Table, station: string, weekday: nat, hour: nat, minute: nat): (r: Reading)
    requires weekday <= 6 && Rectangular(t)
    ensures var day, slot := DayType(weekday), SlotLabel(hour, minute);
      var rows := Matching(t.rows, Normalize(station), day);
      && (slot !in t.columns ==> r == Reading(0.0, ServiceEndedBasis(day, slot)))
      && (slot in t.columns && rows == [] ==> r == Reading(-1.0, NoData))
      && (slot in t.columns && rows != [] ==> r.basis == MeasuredBasis(day, slot) && IsColumnMax(rows, slot, r.value))
  {
    var day := DayType(weekday);
    var slot := SlotLabel(hour, minute);
    if slot !in t.columns then Reading(0.0, ServiceEndedBasis(day, slot))
    else
      var rows := Matching(t.rows, Normalize(station), day);
      if rows == [] then Reading(-1.0, NoData)
      else
        assert forall row :: row in rows ==> slot in row.values by {
          forall row | row in rows ensures slot in row.values {
            var i :| 0 <= i < |t.rows| && t.rows[i] == row;
          }
        }
        Reading(MaxOver(rows, slot), MeasuredBasis(day, slot))
  }

  /** The two sentinels are told apart by their basis text, never only by the number. */
  lemma SentinelsDistinct(day: string, slot: string)
    ensures ServiceEndedBasis(day, slot) != NoData
    ensures MeasuredBasis(day, slot) != NoData
    ensures ServiceEndedBasis(day, slot) != MeasuredBasis(day, slot)
  {
    var ended, measured := ServiceEndedBasis(day, slot), MeasuredBasis(day, slot);
    if |ended| == |NoData| {
      assert false;
    }
    if |measured| == |NoData| {
      assert measured[|measured| - 1] != NoData[|NoData| - 1];
    }
    if |ended| == |measured| {
      assert false;
    }
  }

  /** Out of service hours every station gets the same 0 reading: the station is not even looked at. */
  lemma ServiceEndedIgnoresStation(t: Table, s1: string, s2: string, weekday: nat, hour: nat, minute: nat)
    requires weekday <= 6 && Rectangular(t)
    requires SlotLabel(hour, minute) !in t.columns
    ensures CurrentCongestion(t, s1, weekday, hour, minute) == CurrentCongestion(t, s2, weekday, hour, minute)
    ensures CurrentCongestion(t, s1, weekday, hour, minute).value == 0.0
  {
  }

  /** Typing "강남역" or "강남" reads the same rows, so gives the same reading. */
  lemma SuffixIrrelevant(t: Table, stem: string, weekday: nat, hour: nat, minute: nat)
    requires weekday <= 6 && Rectangular(t)
    requires StationChar !in stem
    ensures CurrentCongestion(t, stem + [StationChar], weekday, hour, minute) == CurrentCongestion(t, stem, weekday, hour, minute)
  {
    CleanWithSuffix(stem);
  }

  /** A statistics row whose station name contains 역 is never selected, whatever name is typed. */
  lemma RowWithStationCharNeverMatches(rows: seq<Row>, typed: string, day: string, row: Row)
    requires row in rows && StationChar in row.station
    ensures row !in Matching(rows, Normalize(typed), day)
  {
  }

  /**
    Typing "역삼" searches the rows of "삼": unless the table has such rows, every slot of the table reads
    the no-data sentinel, even when it holds rows for "역삼".
   */
  lemma YeoksamReadsNoData(t: Table, weekday: nat, hour: nat, minute: nat)
    requires weekday <= 6 && Rectangular(t)
    requires SlotLabel(hour, minute) in t.columns
    requires forall row :: row in t.rows ==> row.station != "삼"
    ensures CurrentCongestion(t, "역삼", weekday, hour, minute) == Reading(-1.0, NoData)
  {
    assert Normalize("역삼") == "삼" by {
      assert "역삼"[1..] == "삼";
    }
  }
}
