# Air-Subway congestion and health-report derivation, in Dafny

Air-Subway looks up Seoul subway congestion statistics for a station at the current half hour, finds the
district of the station for an air-quality query, computes a discomfort index from temperature and
humidity, and turns these into a "health diagnosis": a congestion tier, a dust status, extra remarks, the
day's worst and best half hours and a "golden time" to leave soon. This project models that derivation as
it is written in `logic.py`, in the decision code of the render functions of `app.py`, and in the older
copy `backup/app_backup.py`. The statistics table, the measurement rows of the air service, the weather
and the clock (weekday, hour, minute) are parameters.

Modules:

- `Text`: `str(n)`, `int()` on digit strings, `split(sep)[0]`, `replace(c, "")`, substring test.
- `Stations`: the 역-removing normalisation and the station-to-district table `STATION_TO_GU`.
- `Congestion`: the statistics table and `get_real_congestion` (day type, slot column, the 0 and -1 sentinels, the maximum over directions).
- `AirQuality`: the district search inside `get_gu_air_quality`, over given measurement rows.
- `Discomfort`: `calculate_discomfort_index` of `logic.py`.
- `Golden`: what the golden-time loops must return, for the three-hour window of `app.py` and the open window of the backup.
- `Dashboard`: `app.py`: tier, dust status, daily series, worst/best slot, the bounded golden-time loop.
- `Backup`: `backup/app_backup.py`: its discomfort labels, report remarks and the unbounded golden-time loop.

`get_real_congestion` and the district lookup of the backup are the same code as in `logic.py` and are
modelled once, by `Congestion.CurrentCongestion` and `Stations.LookupDistrict`.

Normalisation removes every 역, not only a trailing one. The discomfort index of 30 degrees at 80 percent
is 82.92, in the top band.

## Model

| member | source | states |
|---|---|---|
| `Text.NatToDecimal` | logic.py:49 | `f"{hour}"` is a non-empty run of decimal digits, never zero-padded: one digit below 10, and a leading 0 only for 0 itself |
| `Text.ParseNat` | app.py:110 | `int()` succeeds exactly on a non-empty run of decimal digits; anything else is the error the loop catches |
| `Text.PrefixBeforeAbsent` | app.py:110 | a column without 시 is split to itself |
| `Text.PrefixBefore` | app.py:110 | `split("시")[0]` is the longest prefix without the separator; the separator follows it when it is shorter than the text |
| `Text.ParseNatToDecimal` | app.py:110 | `int()` of the decimal rendering of an hour gives the hour back |
| `Text.RemoveAll` | logic.py:54 | `replace(c, "")` keeps exactly the characters other than `c`, and changes nothing when `c` is absent |
| `Text.RemoveAllCount` | logic.py:54 | every character other than `c` is kept as often as it occurs, and `c` not at all |
| `Text.RemoveAllAppend` | logic.py:54 | removing from `a + b` is removing from `a` followed by removing from `b`, so the kept characters stay in order |
| `Text.RemoveAllSingle` | logic.py:54 | a single character is dropped exactly when it is `c` |
| `Text.Contains` | logic.py:92 | the substring test holds exactly when the needle occurs at some index of the text |
| `Text.EmptyContained` | logic.py:92 | the empty string is contained in every site name |
| `Text.PrefixBeforeJoin` | app.py:110 | splitting `a + "시" + b` at its first 시 gives `a` when `a` has no 시 |
| `Stations.Normalize` | logic.py:54 | the cleaned name has no 역 at all and keeps every other character |
| `Stations.NormalizeCount` | logic.py:54 | every character other than 역 is kept as often as it is typed |
| `Stations.NormalizeAppend` | logic.py:54 | cleaning `a + b` is cleaning `a` followed by cleaning `b`: the kept characters stay in the order typed ("서울역" gives "서울") |
| `Stations.NormalizeIdempotent` | logic.py:54 | cleaning a cleaned name changes nothing |
| `Stations.LookupDistrict` | logic.py:89-90 | the district is the table entry of the cleaned name if it is a key, otherwise the cleaned name |
| `Stations.SuffixKeysUnreachable` | logic.py:9-21 | no input cleans to a key that contains 역, so those entries are never used |
| `Stations.KeysWithStationChar` | logic.py:10-12 | the only such keys are "역삼" and "서울역" |
| `Stations.YeoksamFallsBack` | logic.py:89-90 | typing "역삼" yields the search term "삼", not "강남구" |
| `Stations.SeoulStationFallsBack` | logic.py:89-90 | typing "서울역" yields the search term "서울", not "중구" |
| `Stations.GangnamStation` | logic.py:89-90 | "강남역" maps to "강남구" |
| `Stations.SeoulIsNotAKey` | logic.py:12 | "서울" is not a key of the table |
| `Stations.SamIsNotAKey` | logic.py:10 | "삼" is not a key of the table |
| `Stations.YeongtongIsNotAKey` | logic.py:9-21 | "영통" is not a key of the table |
| `Stations.EmptyIsNotAKey` | logic.py:9-21 | the empty name is not a key of the table |
| `Stations.GangnamIsAKey` | logic.py:10 | "강남" is a key and maps to "강남구" |
| `Stations.UnmappedName` | logic.py:90 | an unmapped name such as "영통" is its own district |
| `Stations.BareStationChar` | logic.py:89-90 | a lone 역 gives the empty search term |
| `Stations.CleanWithSuffix` | logic.py:54 | cleaning a 역-free stem followed by 역 gives the stem |
| `Stations.RemoveAllSuffix` | logic.py:54 | removing `c` from a `c`-free stem followed by `c` gives the stem |
| `Stations.StripSuffix` | logic.py:89 | drops exactly one trailing 역 when there is one, otherwise keeps the name |
| `Stations.LookupDistrictCorrected` | logic.py:89-90 | the lookup as evidently intended: the name as typed first, then without a trailing 역, then the stripped name |
| `Stations.EveryKeyReachable` | logic.py:9-21 | with the corrected lookup every key reaches its district, typed bare or followed by 역 |
| `Stations.CorrectedAgreesWithoutStationChar` | logic.py:89-90 | on names without 역 the corrected lookup equals the program's |
| `Stations.CorrectedAgreesOnSuffixedName` | logic.py:89-90 | on a 역-free stem followed by 역 the corrected lookup equals the program's |
| `Congestion.DayType` | logic.py:44-45 | "평일" exactly for weekdays 0-4, "토요일" exactly for 5, "일요일" exactly for 6 |
| `Congestion.SlotLabel` | logic.py:47-49 | the slot is a half-hour column name (contains 시 and 분) |
| `Congestion.SlotHalves` | logic.py:49 | two minutes of one hour share a slot exactly when both are below 30 or both are not |
| `Congestion.Matching` | logic.py:55-56 | the selected rows are exactly those of the cleaned station and the day type |
| `Congestion.MaxOver` | logic.py:61 | the value is at least every row's value in the column and equals one of them |
| `Congestion.CurrentCongestion` | logic.py:42-61 | slot not a column: (0, "<day> <slot> (운행종료)") for any station; no matching row: (-1, "데이터 없음"); otherwise the column maximum over matching rows with "<day> <slot> 기준" |
| `Congestion.SentinelsDistinct` | logic.py:51-61 | the three basis texts always differ, so the sentinels can be told apart |
| `Congestion.ServiceEndedIgnoresStation` | logic.py:51-52 | outside the table's slots every station gets the same 0 reading |
| `Congestion.SuffixIrrelevant` | logic.py:54-55 | "X역" and "X" give the same reading |
| `Congestion.RowWithStationCharNeverMatches` | logic.py:54-55 | a statistics row whose station name contains 역 is never selected, whatever is typed |
| `Congestion.YeoksamReadsNoData` | logic.py:54-60 | typing "역삼" reads (-1, "데이터 없음") at every slot of the table unless the table has rows for "삼" |
| `AirQuality.SitesContaining` | logic.py:92 | the selected measurements are exactly those whose site name contains the term |
| `AirQuality.SitesContainingCount` | logic.py:92 | a matching measurement is kept as often as it occurs, any other not at all |
| `AirQuality.SitesContainingAppend` | logic.py:92 | selecting from `a + b` is selecting from `a` followed by selecting from `b`, so the service's order is kept |
| `AirQuality.FirstSelected` | logic.py:92 | the first selected measurement is the first one, in the service's order, whose site contains the term |
| `AirQuality.EmptyTargetKeepsAll` | logic.py:92 | the empty term selects every measurement, in order |
| `AirQuality.GuAirQuality` | logic.py:89-99 | the frame is empty exactly when no site contains the district term; otherwise it has the renamed columns and, row for row in the service's order, the readings of exactly the selected sites; the retry selects nothing new |
| `AirQuality.RowsHaveReadings` | logic.py:97-99 | every returned row carries the 미세먼지 and 초미세먼지 values |
| `AirQuality.BareStationCharSelectsAll` | logic.py:89-94 | a lone 역 returns every site |
| `AirQuality.NoPm10Column` | backup/app_backup.py:120-125 | the returned frame never has a "PM10" column |
| `Discomfort.Index` | logic.py:113 | at a fixed humidity the index is linear in the temperature, with slope 0.81 + 0.0099 × humidity |
| `Discomfort.IndexRisesWithTemperature` | logic.py:113 | at any humidity from 0 percent a warmer day has a strictly higher index |
| `Discomfort.BandOf` | logic.py:115-118 | the bands are the intervals [80, ∞), [75, 80), [68, 75) and below 68 |
| `Discomfort.BandMonotone` | logic.py:115-118 | a higher index never lands in a milder band |
| `Discomfort.DiscomfortIndex` | logic.py:110-118 | missing temperature or humidity gives (0, "정보 없음"); otherwise the formula's value and its band's label |
| `Discomfort.HotHumidDay` | logic.py:113-115 | 30 degrees at 80 percent gives 82.92, "매우 나쁨" |
| `Discomfort.StubWeatherIsPleasant` | logic.py:105-118 | the fixed weather (-5.2, 35) gives 35.2812, the pleasant label |
| `Discomfort.LabelsDistinct` | logic.py:112-118 | the four labels and "정보 없음" are pairwise different |
| `Golden.LabelHour` | app.py:110 | the hour of a column is `int()` of its text before the first 시, none where `int()` would raise; stated by `Golden.LabelHourOf` and `Golden.SlotLabelHour` |
| `Golden.LabelHourOf` | backup/app_backup.py:305 | no hour exactly when the text before the first 시 is not decimal (the loop skips the column); a column without 시 is parsed whole |
| `Golden.Qualifies` | app.py:111-112 | the window test: the hour parses and, with 0 read as 24, lies in [now, now + 3]; in the backup (backup/app_backup.py:306) it is at least now; stated by `Golden.MidnightColumn` and `Golden.WithinIsPartOfOnward` |
| `Golden.SlotLabelHour` | app.py:110 | parsing the hour of a column built by the slot rule gives its hour |
| `Golden.SlotLabelInjective` | logic.py:49 | different hours never share a slot column |
| `Golden.GoldenUnique` | app.py:106-116 | at most one slot is the golden one (ties go to the earlier column) |
| `Golden.GoldenExists` | app.py:106-116 | some slot is golden exactly when some qualifying slot is below 100 |
| `Golden.MidnightColumn` | app.py:111-112 | a "0시" column is in the three-hour window exactly from 21 o'clock, and in the backup's window only at 0 o'clock |
| `Golden.WithinIsPartOfOnward` | app.py:112 | other columns in the three-hour window are also in the backup's window |
| `Dashboard.TierOf` | app.py:39-65 | danger exactly from 55, caution exactly on [35, 55), comfortable exactly below 35 |
| `Dashboard.SentinelsReadComfortable` | app.py:64-65 | the -1 (no data) and 0 (service ended) readings both fall into the comfortable tier |
| `Dashboard.TierMonotone` | app.py:39-52 | a higher score never gets a milder tier |
| `Dashboard.Pm10Status` | app.py:29-30 | 나쁨 exactly from 81, 좋음 exactly up to 30, 보통 strictly between |
| `Dashboard.ReadAir` | app.py:25-30 | (0, 보통) when the frame is empty or lacks the column; otherwise the first row's value and its status |
| `Dashboard.ReadsFirstSite` | app.py:27-28 | on the query result the report reads (0, 보통) when no site matches, otherwise the PM value and status of the first site, in the service's order, matching the district term |
| `Dashboard.ReadsFirstOf` | app.py:28 | a frame of the selected sites' rows, in order, is read at the first selected site |
| `Dashboard.SurvivalReport` | app.py:21-65 | tier by the thresholds 55 and 35; dust (0, 보통) for an empty frame or one without 미세먼지, else the first row's value with its status; discomfort (0, "정보 없음") without weather, else the formula's value with its band's label |
| `Dashboard.ReportOnQueries` | app.py:21-65 | for the app's own inputs: both congestion sentinels give the comfortable tier, the dust reading is the first matching site's, and the fixed weather of logic.py reads pleasant |
| `Dashboard.TimeColumns` | app.py:92 | exactly the columns whose names contain both 시 and 분 |
| `Dashboard.TimeColumnsCount` | app.py:92 | a time column is kept as often as it occurs, any other column not at all |
| `Dashboard.TimeColumnsAppend` | app.py:92 | the time columns of `a + b` are those of `a` followed by those of `b`, so table order is kept |
| `Dashboard.SeriesOver` | app.py:93 | one slot per column, in order, holding that column's maximum over the rows |
| `Dashboard.DailySeries` | app.py:80-93 | nothing when no row matches; otherwise one slot per half-hour column, in order, holding the column maximum over the matching rows |
| `Dashboard.CurrentIsSeriesValue` | app.py:93 | the current-slot reading equals the daily series' value at that slot |
| `Dashboard.FirstMaxIndex` | app.py:99 | `idxmax` is the first position of the largest value |
| `Dashboard.FirstMinIndex` | app.py:101 | `idxmin` is the first position of the least value |
| `Dashboard.GoldenWindow` | app.py:104-117 | ("-", 100) when no column within three hours (0 read as 24) is below 100; otherwise the first such column of least value; the value is at most 100 |
| `Dashboard.NineOClockExample` | app.py:104-117 | 9시00분 = 40, 10시00분 = 20, 11시00분 = 60 at 9 o'clock gives 10시00분 at 20 |
| `Dashboard.TenOClockColumn` | logic.py:49 | the column of 10:00 is the text "10시00분" |
| `Dashboard.CongestionChart` | app.py:78-118 | no briefing when no row matches; `idxmax` raises on an empty series; otherwise the first maximum, the first minimum and the golden result |
| `Backup.BackupDiscomfortIndex` | backup/app_backup.py:156-167 | missing weather gives (0, "정보 없음"); otherwise the same formula's value |
| `Backup.BackupDiscomfortAgrees` | backup/app_backup.py:162-166 | same value and thresholds as logic.py; only the pleasant band reads "쾌적 😊" |
| `Backup.BackupRemarks` | backup/app_backup.py:196-234 | heat remark exactly in the danger tier with index at least 75; dust remark exactly in the danger tier with bad air; pleasant remark exactly in the caution tier with index at most 68 |
| `Backup.BackupSurvivalReport` | backup/app_backup.py:172-234 | the remarks for the backup's discomfort index and its "PM10" dust reading |
| `Backup.BackupAirAlwaysNormal` | backup/app_backup.py:176-181 | on every air-quality result the backup reads (0, 보통) |
| `Backup.DustRemarkNeverShown` | backup/app_backup.py:210 | the dust remark is unreachable |
| `Backup.PleasantWithoutWeather` | backup/app_backup.py:223 | with missing weather (index 0) a caution-tier report praises the weather |
| `Backup.FairAndPleasantAt68` | backup/app_backup.py:223 | an index of exactly 68 is labelled 보통 and still called pleasant |
| `Backup.StubWeatherNeverHot` | backup/app_backup.py:352-358 | with the fixed winter weather the heat remark never appears |
| `Backup.GoldenWindow` | backup/app_backup.py:298-312 | ("-", 100) when no column with hour not before now is below 100; otherwise the first such column of least value; no upper bound, no midnight wrap |

## Findings

| source | as written | input that shows it | evidently intended | confidence | as-written member | corrected member |
|---|---|---|---|---|---|---|
| logic.py:89-90 | the name is cleaned with `replace("역", "")` before the table lookup, so the keys "역삼" and "서울역" can never match | "역삼" searches for "삼" and "서울역" for "서울" instead of "강남구" and "중구" | every key of `STATION_TO_GU` reaches its district | medium, not executed | `Stations.SuffixKeysUnreachable` | `Stations.LookupDistrictCorrected` |

The same `replace("역", "")` also cleans the name compared with the statistics rows (logic.py:54-55): a
row whose station name contains 역 is never selected (`Congestion.RowWithStationCharNeverMatches`), so
typing "역삼" reads the no-data sentinel unless the table has rows for "삼" (`Congestion.YeoksamReadsNoData`).

The corrected lookup is proved to agree with the program's on every name without 역 and on every 역-free
stem followed by 역. The air-quality query `AirQuality.GuAirQuality` keeps the program's lookup, so that it
states what the program does.

## Left out

- Rendering: every `st.*` call, columns, metrics, charts, expanders and the narrative texts; only the chosen tier, status, remarks and slots are modelled.
- Network I/O: `get_arrival`, the request in `get_gu_air_quality`, the backup's `get_weather_info`; the air-quality rows are a parameter, and the fixed weather of logic.py:107 and backup/app_backup.py:353-354 appears only as the values in `Discomfort.StubWeatherIsPleasant`, `Dashboard.ReportOnQueries` and `Backup.StubWeatherNeverHot`.
- CSV loading with encoding fallback, `st.cache_data` and `st.secrets`: the table is a parameter.
- `datetime.now()`: the weekday, hour and minute are parameters.
- The main blocks that wire the pieces together (app.py:131-166, backup/app_backup.py:339-371).
- Floating point: values and the discomfort formula use exact `real` arithmetic, so a value that a double rounds across a threshold may be classified differently.
- Missing cells: pandas skips NaN in `max`, `idxmax` and `idxmin`; the model's table has a value in every half-hour cell (`Congestion.Rectangular`).
- The site name (지역) and grade (상태) columns of the air-quality frame are listed but carry no cells in the rows: they are only displayed, and `Measurement.grade` is not used by any decision.
- `str.contains` is read as a plain substring test, without regular-expression meaning of the search term.
- `int()` accepts only ASCII decimal digits here; Python also accepts signs, surrounding spaces, underscores and other Unicode digits.
- Dashboard.ReadAir: requires that a column that is present holds numbers; `float()` of a non-numeric cell would raise.
- Dashboard.SurvivalReport: requires, like `Dashboard.ReadAir`, that a 미세먼지 column that is present holds a number in its first row.
- Backup.BackupDiscomfortIndex: its own contract states only the value; the status is stated by `Backup.BackupDiscomfortAgrees`.
