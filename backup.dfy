/**
  The older copy, backup/app_backup.py. Its `get_real_congestion` (lines 38-57) and district lookup
  (lines 107-108) are the code of logic.py and are modelled by `Congestion.CurrentCongestion` and
  `Stations.LookupDistrict`. What differs is modelled here: the default discomfort label, the report's
  extra remarks (read from a "PM10" column the frame never has), and the golden-time loop without an
  upper bound and without the midnight wrap.
 */
module Backup {

  import opened Wrappers
  import opened Text
  import opened AirQuality
  import opened Discomfort
  import opened Golden
  import opened Dashboard

  const PleasantLabel := "쾌적 😊"

  /** The backup's `calculate_discomfort_index`: a status preset to "쾌적 😊", overwritten by the thresholds. */
  function BackupDiscomfortIndex(temp: Option<real>, humi: Option<real>): (r: DiReading)
    ensures temp.None? || humi.None? ==> r == DiReading(0.0, NoInfo)
    ensures temp.Some? && humi.Some? ==> r.value == Index(temp.value, humi.value)
  {
    if temp.None? || humi.None? then DiReading(0.0, NoInfo)
    else
      var di := Index(temp.value, humi.value);
      var status :=
        if di >= 80.0 then Label(VeryBad)
        else if di >= 75.0 then Label(Bad)
        else if di >= 68.0 then Label(Fair)
        else PleasantLabel;
      DiReading(di, status)
  }

  /** Same index and the same three thresholds as logic.py; only the pleasant band is labelled differently. */
  lemma BackupDiscomfortAgrees(temp: Option<real>, humi: Option<real>)
    ensures BackupDiscomfortIndex(temp, humi).value == DiscomfortIndex(temp, humi).value
    ensures var r := DiscomfortIndex(temp, humi);
      temp.Some? && humi.Some? && BandOf(r.value) == Pleasant ==> BackupDiscomfortIndex(temp, humi).status == PleasantLabel
    ensures var r := DiscomfortIndex(temp, humi);
      !(temp.Some? && humi.Some? && BandOf(r.value) == Pleasant) ==> BackupDiscomfortIndex(temp, humi).status == r.status
  {
  }

  /** The backup reads the dust value from a column named "PM10". */
  const BackupPm10Column := "PM10"

  /** The remarks that the backup's report may add to its tier. */
  datatype Remarks = Remarks(tier: Tier, heat: bool, dust: bool, pleasant: bool)

  /**
    The remark conditions: in the danger tier a heat remark when the index is 75 or more and a dust
    remark when the air is bad; in the caution tier a pleasant-weather remark when the index is 68 or less.
   */
  function BackupRemarks(score: real, di: real, air: AirStatus): (r: Remarks)
    ensures r.tier == TierOf(score)
    ensures r.heat <==> score >= 55.0 && di >= 75.0
    ensures r.dust <==> score >= 55.0 && air == Poor
    ensures r.pleasant <==> 35.0 <= score < 55.0 && di <= 68.0
  {
    var tier := TierOf(score);
    Remarks(tier, tier == Danger && di >= 75.0, tier == Danger && air == Poor, tier == Caution && di <= 68.0)
  }

  /** The backup's `show_survival_report`, reduced to which tier and which remarks it shows. */
  function BackupSurvivalReport(score: real, f: AirFrame, temp: Option<real>, humi: Option<real>): (r: Remarks)
    requires |f.rows| > 0 && BackupPm10Column in f.columns ==> BackupPm10Column in f.rows[0]
    ensures r == BackupRemarks(score, BackupDiscomfortIndex(temp, humi).value, ReadAir(f, BackupPm10Column).status)
  {
    var di := BackupDiscomfortIndex(temp, humi);
    var air := ReadAir(f, BackupPm10Column);
    BackupRemarks(score, di.value, air.status)
  }

  /** On every frame the air-quality query returns, the backup reads 0 and 보통: there is no "PM10" column. */
  lemma BackupAirAlwaysNormal(ms: seq<Measurement>, station: string)
    ensures ReadAir(GuAirQuality(ms, station), BackupPm10Column) == AirReading(0.0, Normal)
  {
    NoPm10Column(ms, station);
  }

  /** Hence the dust remark of the danger tier is never shown. */
  lemma DustRemarkNeverShown(ms: seq<Measurement>, station: string, score: real, temp: Option<real>, humi: Option<real>)
    ensures !BackupSurvivalReport(score, GuAirQuality(ms, station), temp, humi).dust
  {
    BackupAirAlwaysNormal(ms, station);
  }

  /** Missing weather reads as index 0, so a caution-tier report praises the weather outside. */
  lemma PleasantWithoutWeather(score: real, f: AirFrame, humi: Option<real>)
    requires |f.rows| > 0 && BackupPm10Column in f.columns ==> BackupPm10Column in f.rows[0]
    requires 35.0 <= score < 55.0
    ensures BackupSurvivalReport(score, f, None, humi).pleasant
  {
  }

  /** An index of exactly 68 is labelled 보통 (fair) and, in the caution tier, also called pleasant. */
  lemma FairAndPleasantAt68(score: real)
    requires 35.0 <= score < 55.0
    ensures BandOf(68.0) == Fair
    ensures BackupRemarks(score, 68.0, Normal).pleasant
  {
  }

  /** With the fixed winter weather of the backup's main block (-5.2 degrees, 35 percent) no heat remark appears. */
  lemma StubWeatherNeverHot(score: real, f: AirFrame)
    requires |f.rows| > 0 && BackupPm10Column in f.columns ==> BackupPm10Column in f.rows[0]
    ensures !BackupSurvivalReport(score, f, Some(-5.2), Some(35.0)).heat
  {
  }

  /**
    The backup's golden-time loop: every column whose hour parses and is not before now takes part;
    hour 0 is not moved to 24 and there is no upper bound. Same strict update from ("-", 100).
   */
  method GoldenWindow(s: seq<Slot>, currentHour: nat) returns (time: string, val: real)
    ensures val <= Ceiling
    ensures GoldenResult(s, currentHour, Onward, Slot(time, val))
  {
    time, val := NoSlot, Ceiling;
    ghost var at := -1;
    for k := 0 to |s|
      invariant -1 <= at < k
      invariant at == -1 ==> time == NoSlot && val == Ceiling && NoneBelow(s, k, currentHour, Onward)
      invariant at >= 0 ==> IsGolden(s, k, currentHour, Onward, at) && time == s[at].column && val == s[at].value
    {
      var parsed := ParseNat(PrefixBefore(s[k].column, '시'));
      if parsed.Some? {
        var hour := parsed.value;
        if hour >= currentHour {
          var v := s[k].value;
          if v < val {
            time, val := s[k].column, v;
            at := k;
          }
        }
      }
    }
  }
}
