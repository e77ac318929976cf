/**
  Station names and the static station-to-district table (`STATION_TO_GU`, identical in logic.py and
  backup/app_backup.py). The name is "cleaned" with `replace("역", "")` before every lookup.
 */
module Stations {

  import opened Text

  /** The character 역 ("station") that users type after a station name. */
  const StationChar: char := '역'

  /** `station_name.replace("역", "")`: removes EVERY 역, not only a trailing one. */
  function Normalize(name: string): (clean: string)
    ensures StationChar !in clean
    ensures forall x :: x in clean <==> x in name && x != StationChar
    ensures StationChar !in name ==> clean == name
  {
    RemoveAll(name, StationChar)
  }

  /** Every character other than 역 is kept as often as it is typed. */
  lemma NormalizeCount(name: string, x: char)
    requires x != StationChar
    ensures multiset(Normalize(name))[x] == multiset(name)[x]
  {
    RemoveAllCount(name, StationChar, x);
  }

  /** The characters kept stay in the order typed: cleaning `a + b` cleans `a`, then `b`. */
  lemma NormalizeAppend(a: string, b: string)
    ensures Normalize(a + b) == Normalize(a) + Normalize(b)
  {
    RemoveAllAppend(a, b, StationChar);
  }

  /** Normalising twice is normalising once. */
  lemma NormalizeIdempotent(name: string)
    ensures Normalize(Normalize(name)) == Normalize(name)
  {
  }

  const StationToGu: map<string, string> := map[
    "강남" := "강남구", "역삼" := "강남구", "삼성" := "강남구", "신사" := "강남구", "압구정" := "강남구", "청담" := "강남구",
    "종각" := "종로구", "종로3가" := "종로구", "종로5가" := "종로구", "혜화" := "종로구", "광화문" := "종로구",
    "시청" := "중구", "서울역" := "중구", "을지로" := "중구", "명동" := "중구", "충무로" := "중구", "동대문" := "중구",
    "홍대입구" := "마포구", "합정" := "마포구", "신촌" := "서대문구", "이대" := "서대문구",
    "여의도" := "영등포구", "영등포" := "영등포구", "당산" := "영등포구",
    "잠실" := "송파구", "가락시장" := "송파구", "잠실나루" := "송파구",
    "건대입구" := "광진구", "성수" := "성동구", "왕십리" := "성동구",
    "고속터미널" := "서초구", "교대" := "서초구", "서초" := "서초구", "양재" := "서초구",
    "사당" := "동작구", "노량진" := "동작구", "이수" := "동작구",
    "구로디지털단지" := "구로구", "신도림" := "구로구",
    "용산" := "용산구", "이태원" := "용산구", "한남" := "용산구"
  ]

  /** `STATION_TO_GU.get(clean, clean)`: the mapped district, or the cleaned name itself. */
  function LookupDistrict(name: string): (district: string)
    ensures var clean := Normalize(name);
      && (clean in StationToGu ==> district == StationToGu[clean])
      && (clean !in StationToGu ==> district == clean)
  {
    var clean := Normalize(name);
    if clean in StationToGu then StationToGu[clean] else clean
  }

  /**
    A key of the table that contains 역 is never the cleaned form of any input, so its entry is dead:
    "역삼" and "서울역" can never be looked up.
   */
  lemma {:induction false} SuffixKeysUnreachable(name: string, key: string)
    requires key in StationToGu && StationChar in key
    ensures Normalize(name) != key
  {
  }

  /** The two keys of the table that contain 역 are exactly "역삼" and "서울역". */
  lemma KeysWithStationChar(key: string)
    requires key in StationToGu && StationChar in key
    ensures key == "역삼" || key == "서울역"
  {
    var i :| 0 <= i < |key| && key[i] == StationChar;
  }

  /** Typing the key "역삼" reaches the fallback with "삼", not "강남구". */
  lemma YeoksamFallsBack()
    ensures LookupDistrict("역삼") == "삼"
  {
    assert Normalize("역삼") == "삼" by {
      assert "역삼"[1..] == "삼";
    }
    SamIsNotAKey();
  }

  lemma SamIsNotAKey()
    ensures "삼" !in StationToGu
  {
  }

  /** Typing the key "서울역" reaches the fallback with "서울", not "중구". */
  lemma SeoulStationFallsBack()
    ensures LookupDistrict("서울역") == "서울"
  {
    CleanWithSuffix("서울");
    assert "서울" + [StationChar] == "서울역";
    SeoulIsNotAKey();
  }

  lemma SeoulIsNotAKey()
    ensures "서울" !in StationToGu
  {
  }

  /** The usual case: "강남역" cleans to "강남", which maps to "강남구". */
  lemma GangnamStation()
    ensures LookupDistrict("강남역") == "강남구"
  {
    CleanWithSuffix("강남");
    assert "강남" + [StationChar] == "강남역";
    GangnamIsAKey();
  }

  lemma GangnamIsAKey()
    ensures "강남" in StationToGu && StationToGu["강남"] == "강남구"
  {
    assert "강남"[0] != "한남"[0];
  }

  /** An unmapped name such as "영통" is its own district. */
  lemma UnmappedName()
    ensures LookupDistrict("영통") == "영통"
  {
    assert StationChar !in "영통";
    assert Normalize("영통") == "영통";
    YeongtongIsNotAKey();
  }

  lemma YeongtongIsNotAKey()
    ensures "영통" !in StationToGu
  {
  }

  /** Cleaning a 역-free stem followed by one 역 gives the stem. */
  lemma CleanWithSuffix(stem: string)
    requires StationChar !in stem
    ensures Normalize(stem + [StationChar]) == stem
  {
    RemoveAllSuffix(stem, StationChar);
  }

  /** A lone 역 cleans to the empty name, which is not a key, so the district query term is "". */
  lemma BareStationChar()
    ensures LookupDistrict("역") == ""
  {
    RemoveAllSuffix("", StationChar);
    EmptyIsNotAKey();
  }

  lemma EmptyIsNotAKey()
    ensures "" !in StationToGu
  {
  }

  // ----- The lookup as evidently intended -----

  /** Drops one trailing 역, if there is one. */
  function StripSuffix(name: string): (r: string)
    ensures r == name || name == r + [StationChar]
    ensures |name| > 0 && name[|name| - 1] == StationChar ==> name == r + [StationChar]
  {
    if |name| > 0 && name[|name| - 1] == StationChar then name[..|name| - 1] else name
  }

  /** Looks the name up as typed, then with a trailing 역 dropped, then falls back to the stripped name. */
  function LookupDistrictCorrected(name: string): (district: string)
    ensures name in StationToGu ==> district == StationToGu[name]
    ensures name !in StationToGu && StripSuffix(name) in StationToGu ==> district == StationToGu[StripSuffix(name)]
    ensures name !in StationToGu && StripSuffix(name) !in StationToGu ==> district == StripSuffix(name)
  {
    if name in StationToGu then StationToGu[name]
    else
      var stem := StripSuffix(name);
      if stem in StationToGu then StationToGu[stem] else stem
  }

  /** Every entry of the table is reachable, both as its key and as the key followed by 역. */
  lemma {:induction false} EveryKeyReachable(key: string)
    requires key in StationToGu
    ensures LookupDistrictCorrected(key) == StationToGu[key]
    ensures key + [StationChar] !in StationToGu ==> LookupDistrictCorrected(key + [StationChar]) == StationToGu[key]
  {
    var typed := key + [StationChar];
    assert typed[..|typed| - 1] == key;
  }

  /** For a name holding no 역, the corrected lookup is the program's lookup. */
  lemma {:induction false} CorrectedAgreesWithoutStationChar(name: string)
    requires StationChar !in name
    ensures LookupDistrictCorrected(name) == LookupDistrict(name)
  {
  }

  /** For a 역-free stem followed by one 역, the corrected lookup is again the program's lookup. */
  lemma {:induction false} CorrectedAgreesOnSuffixedName(stem: string)
    requires StationChar !in stem && stem + [StationChar] !in StationToGu
    ensures LookupDistrictCorrected(stem + [StationChar]) == LookupDistrict(stem + [StationChar])
  {
    var typed := stem + [StationChar];
    assert typed[..|typed| - 1] == stem;
    CleanWithSuffix(stem);
  }

  lemma {:induction false} RemoveAllSuffix(stem: string, c: char)
    requires c !in stem
    ensures RemoveAll(stem + [c], c) == stem
    decreases |stem|
  {
    if stem == [] {
      assert RemoveAll([c], c) == [] + RemoveAll([], c);
    } else {
      assert (stem + [c])[1..] == stem[1..] + [c];
      RemoveAllSuffix(stem[1..], c);
    }
  }
}
