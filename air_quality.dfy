/**
  The station-to-site selection inside `get_gu_air_quality` (logic.py:89-99; backup/app_backup.py:107-125).
  The measurement rows that the city service returns are a parameter; the request itself is not modelled.
 */
module AirQuality {

  import opened Text
  import opened Stations

  /** One row of the service: site name `MSRSTN_NM`, `PM`, `FPM` and grade `CAI_GRD`. */
  datatype Measurement = Measurement(site: string, pm: real, fpm: real, grade: string)

  /** A returned data frame: column names and, per row, the numeric cells by column name. */
  datatype AirFrame = AirFrame(columns: seq<string>, rows: seq<map<string, real>>)

  const Pm10Column := "미세먼지"
  const Pm25Column := "초미세먼지"
  /** The columns after the rename (`MSRSTN_NM`, `PM`, `FPM`, `CAI_GRD` become these). */
  const RenamedColumns: seq<string> := ["지역", Pm10Column, Pm25Column, "상태"]
  const EmptyFrame := AirFrame([], [])

  /** `df[df['MSRSTN_NM'].str.contains(target)]`, read as a plain substring test. */
  function SitesContaining(ms: seq<Measurement>, target: string): (r: seq<Measurement>)
    ensures forall m :: m in r <==> m in ms && Contains(m.site, target)
    ensures |r| <= |ms|
  {
    if ms == [] then []
    else (if Contains(ms[0].site, target) then [ms[0]] else []) + SitesContaining(ms[1..], target)
  }

  /** A matching measurement is kept as often as it occurs; any other is dropped. */
  lemma {:induction false} SitesContainingCount(ms: seq<Measurement>, target: string, m: Measurement)
    ensures multiset(SitesContaining(ms, target))[m] == if Contains(m.site, target) then multiset(ms)[m] else 0
    decreases |ms|
  {
    if ms != [] {
      assert ms == [ms[0]] + ms[1..];
      SitesContainingCount(ms[1..], target, m);
    }
  }

  /** The mask keeps the service's row order: selecting from `a + b` selects from `a`, then from `b`. */
  lemma {:induction false} SitesContainingAppend(a: seq<Measurement>, b: seq<Measurement>, target: string)
    ensures SitesContaining(a + b, target) == SitesContaining(a, target) + SitesContaining(b, target)
    decreases |a|
  {
    if a == [] {
      assert a + b == b;
    } else {
      assert (a + b)[1..] == a[1..] + b;
      SitesContainingAppend(a[1..], b, target);
    }
  }

  /** The first selected measurement is the first one, in the service's order, whose site contains the term. */
  lemma {:induction false} FirstSelected(ms: seq<Measurement>, target: string)
    requires SitesContaining(ms, target) != []
    ensures exists k :: && 0 <= k < |ms| && Contains(ms[k].site, target) && SitesContaining(ms, target)[0] == ms[k]
                        && forall j :: 0 <= j < k ==> !Contains(ms[j].site, target)
    decreases |ms|
  {
    if !Contains(ms[0].site, target) {
      FirstSelected(ms[1..], target);
      var k :| 0 <= k < |ms[1..]| && Contains(ms[1..][k].site, target) && SitesContaining(ms[1..], target)[0] == ms[1..][k] &&
        forall j :: 0 <= j < k ==> !Contains(ms[1..][j].site, target);
      assert forall j :: 0 <= j < k + 1 ==> !Contains(ms[j].site, target) by {
        forall j | 0 <= j < k + 1 ensures !Contains(ms[j].site, target) {
          if j > 0 {
            assert ms[j] == ms[1..][j - 1];
          }
        }
      }
      assert SitesContaining(ms, target)[0] == ms[k + 1];
    } else {
      assert SitesContaining(ms, target)[0] == ms[0];
    }
  }

  /** Every site contains the empty target, so nothing is filtered out. */
  lemma {:induction false} EmptyTargetKeepsAll(ms: seq<Measurement>)
    ensures SitesContaining(ms, "") == ms
  {
    if ms != [] {
      EmptyContained(ms[0].site);
      EmptyTargetKeepsAll(ms[1..]);
    }
  }

  function ToRow(m: Measurement): map<string, real> {
    map[Pm10Column := m.pm, Pm25Column := m.fpm]
  }

  /**
    The air-quality frame for a typed station name: the district (or the cleaned name) is the search
    term; the second search, run when nothing matched and the term has no 구, is the same search again.
    No match gives the empty frame; otherwise one row per matching site under the renamed columns.
   */
  function GuAirQuality(ms: seq<Measurement>, station: string): (f: AirFrame)
    ensures f.rows == [] <==> forall m :: m in ms ==> !Contains(m.site, LookupDistrict(station))
    ensures f.rows == [] ==> f == EmptyFrame
    ensures f.rows != [] ==> f.columns == RenamedColumns
    ensures var sites := SitesContaining(ms, LookupDistrict(station));
      |f.rows| == |sites| && forall i :: 0 <= i < |sites| ==> f.rows[i] == ToRow(sites[i])
  {
    var target := LookupDistrict(station);
    var result := SitesContaining(ms, target);
    var retried := if result == [] && '구' !in target then SitesContaining(ms, target) else result;
    if retried == [] then EmptyFrame
    else
      var rows := seq(|retried|, i requires 0 <= i < |retried| => ToRow(retried[i]));
      assert forall i :: 0 <= i < |rows| ==> retried[i] in retried;
      assert retried[0] in ms && Contains(retried[0].site, target);
      AirFrame(RenamedColumns, rows)
  }

  /** Every returned row carries both dust readings. */
  lemma RowsHaveReadings(ms: seq<Measurement>, station: string)
    ensures forall i :: 0 <= i < |GuAirQuality(ms, station).rows| ==>
      Pm10Column in GuAirQuality(ms, station).rows[i] && Pm25Column in GuAirQuality(ms, station).rows[i]
  {
  }

  /** A lone 역 becomes the empty search term, which every site name contains: all rows come back. */
  lemma BareStationCharSelectsAll(ms: seq<Measurement>)
    ensures |GuAirQuality(ms, "역").rows| == |ms|
  {
    BareStationChar();
    EmptyTargetKeepsAll(ms);
  }

  /** The frame never has a column named "PM10". */
  lemma NoPm10Column(ms: seq<Measurement>, station: string)
    ensures "PM10" !in GuAirQuality(ms, station).columns
  {
    assert "PM10" !in RenamedColumns by {
      assert forall c :: c in RenamedColumns ==> c[0] != 'P';
    }
  }
}
