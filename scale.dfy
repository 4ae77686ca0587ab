/** Display scales for money amounts: the divisor of each scale, the scaled
    value, and which number and suffix the compact and long formats show. The
    digits themselves (`toFixed`, `toLocaleString`) are not modelled: a
    `NumberText` records the number and the options it is printed with. */
module Scale {

  import opened Numerics

  datatype ValueScale = Actual | Thousands | Millions

  function Divisor(s: ValueScale): (d: real)
    ensures d >= 1.0
  {
    match s
    case Actual => 1.0
    case Thousands => 1000.0
    case Millions => 1000000.0
  }

  /** The amount in units of the scale. */
  function ScaleValue(value: real, s: ValueScale): (r: real)
    ensures r * Divisor(s) == value
    ensures s == Actual ==> r == value
  {
    value / Divisor(s)
  }

  /** A number as printed: `toFixed(digits)`, or `toLocaleString("da-DK")`
      with the given fraction-digit bounds. */
  datatype NumberText =
    | Fixed(x: real, digits: nat)
    | Locale(x: real, minFraction: nat, maxFraction: nat)

  /** A printed number followed by a suffix. */
  datatype Display = Display(text: NumberText, suffix: string)

  /** `formatScaledCompact`: the scale's own unit when one is chosen; in the
      actual scale the unit follows the size of the amount. */
  function FormatScaledCompact(value: real, s: ValueScale): Display {
    var scaled := ScaleValue(value, s);
    if s == Millions then Display(Fixed(scaled, 2), "M DKK")
    else if s == Thousands then Display(Locale(scaled, 0, 1), "k DKK")
    else if Abs(value) >= 1000000.0 then Display(Fixed(value / 1000000.0, 2), "M DKK")
    else if Abs(value) >= 1000.0 then Display(Fixed(value / 1000.0, 0), "K DKK")
    else Display(Fixed(value, 0), " DKK")
  }

  /** `formatScaledValue`: at least one fraction digit unless the scale is
      actual, at most two in millions and otherwise `decimals`, where 0 counts
      as 1 (the `decimals || 1` fallback). */
  function FormatScaledValue(value: real, s: ValueScale, decimals: nat): Display {
    var minFraction := if s == Actual then 0 else 1;
    var maxFraction := if s == Millions then 2 else if decimals == 0 then 1 else decimals;
    Display(Locale(ScaleValue(value, s), minFraction, maxFraction), if s == Millions then "M DKK" else " DKK")
  }

  /** `formatScaledTable`: the scaled number, whole in the actual scale and to
      one decimal otherwise. */
  function FormatScaledTable(value: real, s: ValueScale): NumberText {
    Locale(ScaleValue(value, s), 0, if s == Actual then 0 else 1)
  }

  /** The number a display shows. */
  function Shown(t: NumberText): real {
    match t
    case Fixed(x, _) => x
    case Locale(x, _, _) => x
  }

  // ----- properties -----

  /** Scaling is linear. */
  lemma ScaleValueLinear(u: real, v: real, k: real, s: ValueScale)
    ensures ScaleValue(u + v, s) == ScaleValue(u, s) + ScaleValue(v, s)
    ensures ScaleValue(k * u, s) == k * ScaleValue(u, s)
  {
    var d := Divisor(s);
    assert (u + v) / d == u / d + v / d;
    assert (k * u) / d == k * (u / d);
  }

  /** Scaling keeps the sign and the order of amounts and never enlarges one. */
  lemma ScaleValueOrder(u: real, v: real, s: ValueScale)
    ensures ScaleValue(u, s) > 0.0 <==> u > 0.0
    ensures ScaleValue(u, s) < 0.0 <==> u < 0.0
    ensures u <= v ==> ScaleValue(u, s) <= ScaleValue(v, s)
    ensures Abs(ScaleValue(u, s)) <= Abs(u)
  {
    var d := Divisor(s);
    var r := ScaleValue(u, s);
    assert r * d == u;
    if u <= v {
      assert ScaleValue(v, s) - r == (v - u) / d;
    }
    assert Abs(r) * d == Abs(u);
  }

  /** In the actual scale the compact format picks millions for amounts of at
      least a million in size, thousands for amounts from a thousand up to a
      million, and whole units below, and the number shown times the unit is
      the amount. */
  lemma CompactActualBranches(value: real)
    ensures var d := FormatScaledCompact(value, Actual);
      && (d.suffix == "M DKK" <==> Abs(value) >= 1000000.0)
      && (d.suffix == "K DKK" <==> 1000.0 <= Abs(value) < 1000000.0)
      && (d.suffix == " DKK" <==> Abs(value) < 1000.0)
      && d.text.Fixed?
      && Shown(d.text) * (if Abs(value) >= 1000000.0 then 1000000.0 else if Abs(value) >= 1000.0 then 1000.0 else 1.0) == value
  {
  }

  /** A chosen scale always shows its own unit, whatever the size. */
  lemma CompactChosenScale(value: real, s: ValueScale)
    requires s != Actual
    ensures var d := FormatScaledCompact(value, s);
      && d.suffix == (if s == Millions then "M DKK" else "k DKK")
      && Shown(d.text) * Divisor(s) == value
  {
  }

  /** A large amount looks the same in the actual and in the millions scale. */
  lemma CompactMillionsAgree(value: real)
    requires Abs(value) >= 1000000.0
    ensures FormatScaledCompact(value, Actual) == FormatScaledCompact(value, Millions)
  {
  }

  /** The long format never asks for more minimum than maximum fraction
      digits, which `toLocaleString` would reject, and shows the scaled amount. */
  lemma ScaledValueOptions(value: real, s: ValueScale, decimals: nat)
    ensures var d := FormatScaledValue(value, s, decimals);
      && d.text.Locale? && d.text.minFraction <= d.text.maxFraction
      && d.text.maxFraction >= 1
      && Shown(d.text) * Divisor(s) == value
      && d.suffix == (if s == Millions then "M DKK" else " DKK")
  {
  }

  /** The table shows the scaled amount, whole only in the actual scale. */
  lemma ScaledTableOptions(value: real, s: ValueScale)
    ensures var t := FormatScaledTable(value, s);
      && t.Locale? && t.minFraction == 0 && (t.maxFraction == 0 <==> s == Actual)
      && Shown(t) * Divisor(s) == value
  {
  }
}
