/** The discomfort index of logic.py:110-118 (`calculate_discomfort_index`). */
module Discomfort {

  import opened Wrappers

  /** The four bands of the index, from worst to best. */
  datatype Band = VeryBad | Bad | Fair | Pleasant

  /** 0.81 t + 0.01 h (0.99 t - 14.3) + 46.3, in exact rational arithmetic. */
  function Index(temp: real, humi: real): (di: real)
    ensures di == 46.3 - 0.143 * humi + (0.81 + 0.0099 * humi) * temp
  {
    0.81 * temp + 0.01 * humi * (0.99 * temp - 14.3) + 46.3
  }

  /** At any humidity from 0 percent up, a warmer day has a strictly higher index. */
  lemma IndexRisesWithTemperature(t1: real, t2: real, humi: real)
    requires 0.0 <= humi && t1 < t2
    ensures Index(t1, humi) < Index(t2, humi)
  {
    var slope := 0.81 + 0.0099 * humi;
    assert Index(t2, humi) - Index(t1, humi) == slope * (t2 - t1);
    assert slope > 0.0 && t2 - t1 > 0.0;
  }

  /** The band of an index: lower bounds 80, 75 and 68, each inclusive. */
  function BandOf(di: real): (b: Band)
    ensures b == VeryBad <==> di >= 80.0
    ensures b == Bad <==> 75.0 <= di < 80.0
    ensures b == Fair <==> 68.0 <= di < 75.0
    ensures b == Pleasant <==> di < 68.0
  {
    if di >= 80.0 then VeryBad else if di >= 75.0 then Bad else if di >= 68.0 then Fair else Pleasant
  }

  /** 0 for the best band, 3 for the worst. */
  function Severity(b: Band): nat {
    match b
    case Pleasant => 0
    case Fair => 1
    case Bad => 2
    case VeryBad => 3
  }

  /** A higher index never lands in a milder band. */
  lemma BandMonotone(d1: real, d2: real)
    requires d1 <= d2
    ensures Severity(BandOf(d1)) <= Severity(BandOf(d2))
  {
  }

  function Label(b: Band): string {
    match b
    case VeryBad => "매우 나쁨 (전원 불쾌) 🤬"
    case Bad => "나쁨 (50% 불쾌) 😠"
    case Fair => "보통 (10% 불쾌) 😐"
    case Pleasant => "좋음 (쾌적) 😊"
  }

  const NoInfo := "정보 없음"

  /** The pair `(di, status)` that `calculate_discomfort_index` returns. */
  datatype DiReading = DiReading(value: real, status: string)

  /** A missing temperature or humidity gives `(0, "정보 없음")`; otherwise the index and its band's label. */
  function DiscomfortIndex(temp: Option<real>, humi: Option<real>): (r: DiReading)
    ensures temp.None? || humi.None? ==> r == DiReading(0.0, NoInfo)
    ensures temp.Some? && humi.Some? ==> r.value == Index(temp.value, humi.value)
    ensures temp.Some? && humi.Some? ==> r.status == Label(BandOf(r.value))
  {
    if temp.None? || humi.None? then DiReading(0.0, NoInfo)
    else
      var di := Index(temp.value, humi.value);
      DiReading(di, Label(BandOf(di)))
  }

  /** Hot and humid: 30 degrees at 80 percent is 82.92, in the worst band. */
  lemma HotHumidDay()
    ensures DiscomfortIndex(Some(30.0), Some(80.0)) == DiReading(82.92, Label(VeryBad))
  {
  }

  /** The fixed winter weather of logic.py:107 (-5.2 degrees, 35 percent) is about 35.28: always pleasant. */
  lemma StubWeatherIsPleasant()
    ensures DiscomfortIndex(Some(-5.2), Some(35.0)) == DiReading(35.2812, Label(Pleasant))
  {
  }

  /** The labels tell the bands apart, and none is the no-information text. */
  lemma LabelsDistinct(b1: Band, b2: Band)
    ensures Label(b1) == Label(b2) <==> b1 == b2
    ensures Label(b1) != NoInfo
  {
  }
}
