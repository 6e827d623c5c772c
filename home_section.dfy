/** The display formatters of frontend/components/sections/HomeSection.tsx
    and the value pairs of its half-circle gauges. JavaScript's rendering of a
    non-integer number as text is the parameter `show`; integers are written
    out exactly. */
module HomeSection {
  import opened Js
  import Text

  const NotAvailable := "Not available"

  /** The argument types `number | null | undefined` of the formatters. */
  predicate IsNumberArg(v: JsValue) {
    v.Num? || v.Null? || v.Undefined?
  }

  /** A number the formatters treat as missing: null, undefined or NaN. */
  predicate Missing(v: JsValue) {
    v.Null? || v.Undefined? || (v.Num? && v.n.NaN?)
  }

  /** `Math.round(hours * 10) / 10`: the hours to one decimal place. */
  function RoundedTenths(hours: real): (r: real)
    ensures hours - 1.0 / 20.0 < r <= hours + 1.0 / 20.0
    ensures (r * 10.0).Floor as real == r * 10.0
  {
    Round(hours * 10.0) as real / 10.0
  }

  /** formatHours (HomeSection.tsx:42-51). */
  function FormatHours(hours: JsValue, show: real -> string): (r: string)
    requires IsNumberArg(hours)
    ensures Missing(hours) ==> r == NotAvailable
    ensures hours == Zero ==> r == "0 hrs"
    ensures !Missing(hours) && hours != Zero ==> r == show(RoundedTenths(hours.n.x)) + " hrs"
  {
    if Missing(hours) then NotAvailable
    else if hours.n.x == 0.0 then "0 hrs"
    else show(RoundedTenths(hours.n.x)) + " hrs"
  }

  /** The value formatNumber prints: clamped to [0, 100] for "%" and rounded. */
  function ShownNumber(x: real, suffix: string): (n: int)
    ensures suffix == "%" ==> 0 <= n <= 100
    ensures suffix == "%" && 0.0 <= x <= 100.0 ==> x - 1.0 / 2.0 < n as real <= x + 1.0 / 2.0
    ensures suffix != "%" ==> n == Round(x)
  {
    if suffix == "%" then Round(Clamp(0.0, 100.0, x)) else Round(x)
  }

  /** formatNumber (HomeSection.tsx:53-60). */
  function FormatNumber(value: JsValue, suffix: string): (r: string)
    requires IsNumberArg(value)
    ensures Missing(value) ==> r == NotAvailable
    ensures !Missing(value) ==> r == Text.IntToString(ShownNumber(value.n.x, suffix)) + suffix
  {
    if Missing(value) then NotAvailable
    else Text.IntToString(ShownNumber(value.n.x, suffix)) + suffix
  }

  /** A percentage is printed as one to three digits and "%", and reads back as the shown value. */
  lemma PercentageReadsBack(value: JsValue)
    requires IsNumberArg(value) && !Missing(value)
    ensures var r := FormatNumber(value, "%"); var n := ShownNumber(value.n.x, "%");
      && r == Text.NatToString(n) + "%"
      && 2 <= |r| <= 4
      && Text.IsDigits(r[..|r| - 1]) && Text.ParseDigits(r[..|r| - 1]) == n
  {
    var n := ShownNumber(value.n.x, "%");
    var r := FormatNumber(value, "%");
    var d := Text.NatToString(n);
    Text.ParseNatToString(n);
    assert r == d + "%";
    assert r[..|r| - 1] == d;
    NumeralLength(n);
  }

  lemma NumeralLength(n: nat)
    requires n <= 100
    ensures |Text.NatToString(n)| <= 3
  {
    if n >= 100 {
      assert Text.NatToString(n) == Text.NatToString(n / 10) + [Text.DigitChar(n % 10)];
    }
  }

  /** formatText (HomeSection.tsx:62-67): null, undefined and "" are "Not available". */
  function FormatText(value: JsValue): (r: string)
    requires value.Str? || value.Null? || value.Undefined?
    ensures !Truthy(value) ==> r == NotAvailable
    ensures Truthy(value) ==> r == value.s
  {
    if !Truthy(value) then NotAvailable else value.s
  }

  /** The filled and remaining parts of a gauge (HomeSection.tsx:123-134, and the
      stress, cognitive and emotional gauges after it): the level, 0 when falsy,
      clamped to [0, 100], and what is left of 100. */
  function Gauge(level: JsValue): (r: (real, real))
    requires IsNumberArg(level)
    ensures 0.0 <= r.0 <= 100.0 && 0.0 <= r.1 <= 100.0 && r.0 + r.1 == 100.0
    ensures !Truthy(level) ==> r == (0.0, 100.0)
    ensures Truthy(level) && 0.0 <= level.n.x <= 100.0 ==> r.0 == level.n.x
  {
    var v := if Truthy(level) then level.n.x else 0.0;
    var filled := Clamp(0.0, 100.0, v);
    (filled, 100.0 - filled)
  }
}
