/**
  What the "golden time" loops of app.py:104-117 and backup/app_backup.py:298-312 compute: among the
  slots whose hour lies in the look-ahead window, the first one (in column order) of least value, if
  that value is below the starting value 100; otherwise the pair ("-", 100).
 */
module Golden {

  import opened Wrappers
  import opened Text
  import opened Congestion

  /** One point of the daily series: a column name and its value. */
  datatype Slot = Slot(column: string, value: real)

  /** The look-ahead: app.py looks `hours` ahead with midnight read as 24; the backup looks at every later hour. */
  datatype Horizon = Within(hours: nat) | Onward

  const NoSlot := "-"
  const Ceiling: real := 100.0

  /** `int(col.split("시")[0])`; `None` where `int()` would raise and the loop moves on. */
  function LabelHour(col: string): Option<nat> {
    ParseNat(PrefixBefore(col, '시'))
  }

  /** No hour exactly when the text before the first 시 is not a decimal; a column without 시 is parsed whole. */
  lemma LabelHourOf(col: string)
    ensures LabelHour(col).None? <==> !IsDecimal(PrefixBefore(col, '시'))
    ensures '시' !in col ==> LabelHour(col) == ParseNat(col)
  {
    if '시' !in col {
      PrefixBeforeAbsent(col, '시');
    }
  }

  /** Reading the hour back from a slot column built by `SlotLabel` gives the hour it was built from. */
  lemma SlotLabelHour(hour: nat, minute: nat)
    ensures LabelHour(SlotLabel(hour, minute)) == Some(hour)
  {
    var digits := NatToDecimal(hour);
    var rest: string := if minute < 30 then "00분" else "30분";
    assert SlotLabel(hour, minute) == digits + ['시'] + rest;
    assert '시' !in digits by {
      assert forall i :: 0 <= i < |digits| ==> IsDigit(digits[i]);
    }
    PrefixBeforeJoin(digits, '시', rest);
    ParseNatToDecimal(hour);
  }

  /** Different hours never share a slot column. */
  lemma SlotLabelInjective(h1: nat, m1: nat, h2: nat, m2: nat)
    requires SlotLabel(h1, m1) == SlotLabel(h2, m2)
    ensures h1 == h2
  {
    SlotLabelHour(h1, m1);
    SlotLabelHour(h2, m2);
  }

  /** The slot's hour parses and lies in the window that begins at `currentHour`. */
  predicate Qualifies(col: string, currentHour: nat, horizon: Horizon) {
    match LabelHour(col)
    case None => false
    case Some(h) =>
      match horizon
      case Within(k) =>
        var hour := if h == 0 then 24 else h;
        currentHour <= hour <= currentHour + k
      case Onward => currentHour <= h
  }

  /** No qualifying slot among the first `k` is below the ceiling. */
  predicate NoneBelow(s: seq<Slot>, k: nat, currentHour: nat, horizon: Horizon)
    requires k <= |s|
  {
    forall j :: 0 <= j < k && Qualifies(s[j].column, currentHour, horizon) ==> s[j].value >= Ceiling
  }

  /** Slot `i` is the first qualifying slot of least value among the first `k`, and it is below the ceiling. */
  predicate IsGolden(s: seq<Slot>, k: nat, currentHour: nat, horizon: Horizon, i: int)
    requires k <= |s|
  {
    && 0 <= i < k
    && Qualifies(s[i].column, currentHour, horizon)
    && s[i].value < Ceiling
    && (forall j :: 0 <= j < k && Qualifies(s[j].column, currentHour, horizon) ==> s[i].value <= s[j].value)
    && (forall j :: 0 <= j < i && Qualifies(s[j].column, currentHour, horizon) ==> s[i].value < s[j].value)
  }

  /**
    `g` is what the loop must leave behind: ("-", 100) when no qualifying slot is below 100, and otherwise
    the first qualifying slot of least value.
   */
  ghost predicate GoldenResult(s: seq<Slot>, currentHour: nat, horizon: Horizon, g: Slot) {
    && (NoneBelow(s, |s|, currentHour, horizon) ==> g == Slot(NoSlot, Ceiling))
    && (!NoneBelow(s, |s|, currentHour, horizon) ==> exists i :: IsGolden(s, |s|, currentHour, horizon, i) && g == s[i])
  }

  /** The golden slot, when there is one, is unique: ties go to the earlier column. */
  lemma GoldenUnique(s: seq<Slot>, k: nat, currentHour: nat, horizon: Horizon, i: int, j: int)
    requires k <= |s|
    requires IsGolden(s, k, currentHour, horizon, i) && IsGolden(s, k, currentHour, horizon, j)
    ensures i == j
  {
  }

  /** Either no slot is golden and all qualifying values are at least 100, or some slot is golden. */
  lemma {:induction false} GoldenExists(s: seq<Slot>, k: nat, currentHour: nat, horizon: Horizon)
    requires k <= |s|
    ensures NoneBelow(s, k, currentHour, horizon) <==> forall i :: !IsGolden(s, k, currentHour, horizon, i)
  {
    if k > 0 {
      GoldenExists(s, k - 1, currentHour, horizon);
      var last := s[k - 1];
      if !NoneBelow(s, k - 1, currentHour, horizon) {
        var i :| IsGolden(s, k - 1, currentHour, horizon, i);
        if Qualifies(last.column, currentHour, horizon) && last.value < s[i].value {
          assert IsGolden(s, k, currentHour, horizon, k - 1);
        } else {
          assert IsGolden(s, k, currentHour, horizon, i);
        }
      } else if Qualifies(last.column, currentHour, horizon) && last.value < Ceiling {
        assert IsGolden(s, k, currentHour, horizon, k - 1);
      } else {
        assert NoneBelow(s, k, currentHour, horizon);
      }
    }
  }

  /** A "0시" column: app.py reads it as hour 24, in the window only from 21 o'clock; the backup only at 0 o'clock. */
  lemma MidnightColumn(col: string, currentHour: nat)
    requires LabelHour(col) == Some(0)
    ensures Qualifies(col, currentHour, Within(3)) <==> 21 <= currentHour <= 24
    ensures Qualifies(col, currentHour, Onward) <==> currentHour == 0
  {
  }

  /** Apart from the midnight columns, the three-hour window is a part of the backup's open window. */
  lemma WithinIsPartOfOnward(col: string, currentHour: nat)
    requires LabelHour(col).Some? && LabelHour(col).value != 0
    requires Qualifies(col, currentHour, Within(3))
    ensures Qualifies(col, currentHour, Onward)
  {
  }
}
