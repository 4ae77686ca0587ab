/** The numeric input field: text typed with a comma or a period as decimal
    separator is normalised and parsed, and a parsed value reaches the form
    only when it passes the field's bounds. */
module NumericInput {

  import opened Outcomes
  import opened Numerics
  import opened DecimalText

  // ----- normalisation -----

  /** A character JavaScript's `\s` matches. */
  predicate IsSpace(c: char) {
    || c == ' ' || c == '\t' || c == '\n' || c == '\r' || c == '\U{000B}' || c == '\U{000C}'
    || c == '\U{00A0}' || c == '\U{1680}' || ('\U{2000}' <= c <= '\U{200A}')
    || c == '\U{2028}' || c == '\U{2029}' || c == '\U{202F}' || c == '\U{205F}'
    || c == '\U{3000}' || c == '\U{FEFF}'
  }

  /** `str.replace(",", ".")`: a string pattern replaces its first match only. */
  function ReplaceFirstComma(s: string): (r: string)
    ensures |r| == |s|
    decreases |s|
  {
    if s == [] then []
    else if s[0] == ',' then "." + s[1..]
    else [s[0]] + ReplaceFirstComma(s[1..])
  }

  /** `replace(/\s/g, "")`: every whitespace character goes. */
  function RemoveSpaces(s: string): (r: string)
    ensures forall k :: 0 <= k < |r| ==> !IsSpace(r[k])
    decreases |s|
  {
    if s == [] then []
    else if IsSpace(s[0]) then RemoveSpaces(s[1..])
    else [s[0]] + RemoveSpaces(s[1..])
  }

  function Normalize(s: string): string {
    RemoveSpaces(ReplaceFirstComma(s))
  }

  /** The comma replaced is the first one; text without a comma is kept. */
  lemma {:induction false} ReplaceFirstCommaAt(s: string, i: nat)
    requires i <= |s|
    requires forall k :: 0 <= k < i ==> s[k] != ','
    ensures i < |s| && s[i] == ',' ==> ReplaceFirstComma(s) == s[..i] + "." + s[i + 1..]
    ensures i == |s| ==> ReplaceFirstComma(s) == s
    decreases i
  {
    if i > 0 {
      ReplaceFirstCommaAt(s[1..], i - 1);
      assert s == [s[0]] + s[1..];
      if i < |s| {
        assert s[..i] == [s[0]] + s[1..][..i - 1];
        assert s[i + 1..] == s[1..][i..];
      }
    } else if |s| > 0 {
      assert s[1..] == s[i + 1..];
    }
  }

  /** Text without whitespace is kept as it is. */
  lemma {:induction false} RemoveSpacesKept(a: string)
    requires forall k :: 0 <= k < |a| ==> !IsSpace(a[k])
    ensures RemoveSpaces(a) == a
    decreases |a|
  {
    if a != [] {
      assert !IsSpace(a[0]);
      RemoveSpacesKept(a[1..]);
      assert a == [a[0]] + a[1..];
    }
  }

  /** Every character but whitespace is kept, in order. */
  lemma {:induction false} RemoveSpacesAppend(a: string, b: string)
    ensures RemoveSpaces(a + b) == RemoveSpaces(a) + RemoveSpaces(b)
    decreases |a|
  {
    if a != [] {
      assert (a + b)[1..] == a[1..] + b;
      RemoveSpacesAppend(a[1..], b);
    } else {
      assert a + b == b;
    }
  }

  // ----- Number() -----

  /** The index of the first `c` in `s`, or `|s|`. */
  function FirstIndex(s: string, c: char): (r: nat)
    ensures r <= |s| && (r < |s| ==> s[r] == c)
    ensures forall k :: 0 <= k < r ==> s[k] != c
    decreases |s|
  {
    if s == [] then 0 else if s[0] == c then 0 else 1 + FirstIndex(s[1..], c)
  }

  /** The place value of the `k`-th fraction digit's denominator, `10^k`. */
  function TenTo(k: nat): (r: real)
    ensures r > 0.0
  {
    PowPositive(10.0, k);
    Pow(10.0, k)
  }

  /** Digits with at most one period and at least one digit. */
  function UnsignedNumber(t: string): Option<real> {
    var i := FirstIndex(t, '.');
    if i == |t| then
      if |t| > 0 && AllDigits(t) then Some(DigitsValue(t) as real) else None
    else
      var whole := t[..i];
      var frac := t[i + 1..];
      if |whole| + |frac| > 0 && AllDigits(whole) && AllDigits(frac)
      then Some(DecimalValue(whole, frac))
      else None
  }

  /** `Number(t)` on whitespace-free text, restricted to plain decimals with an
      optional sign: `None` stands for `NaN`. */
  function JsNumber(t: string): Option<real> {
    if t == [] then Some(0.0)
    else if t[0] == '-' then
      match UnsignedNumber(t[1..])
      case Some(x) => Some(-x)
      case None => None
    else if t[0] == '+' then UnsignedNumber(t[1..])
    else UnsignedNumber(t)
  }

  /** `parseDecimal`: `Number(normalized) || 0`, so text that is not a number
      reads as 0 (and `NaN` never comes out). */
  function ParseDecimal(s: string): real {
    match JsNumber(Normalize(s))
    case Some(x) => x
    case None => 0.0
  }

  /** A digit string followed by a separator and a digit string. */
  function DecimalValue(whole: string, frac: string): real
    requires AllDigits(whole) && AllDigits(frac)
  {
    DigitsValue(whole) as real + DigitsValue(frac) as real / TenTo(|frac|)
  }

  lemma DigitsHaveNoSigns(s: string)
    requires AllDigits(s)
    ensures forall k :: 0 <= k < |s| ==> s[k] != ',' && s[k] != '.' && !IsSpace(s[k]) && s[k] != '-' && s[k] != '+'
  {
  }

  /** The unsigned parse of `whole.frac`. */
  lemma UnsignedDecimal(whole: string, frac: string)
    requires AllDigits(whole) && AllDigits(frac) && |whole| + |frac| > 0
    ensures UnsignedNumber(whole + "." + frac) == Some(DecimalValue(whole, frac))
  {
    var t := whole + "." + frac;
    DigitsHaveNoSigns(whole);
    assert t[|whole|] == '.';
    assert FirstIndex(t, '.') == |whole| by {
      forall k | 0 <= k < |whole|
        ensures t[k] != '.'
      {
        assert t[k] == whole[k];
      }
      FirstIndexAt(t, '.', |whole|);
    }
    assert t[..|whole|] == whole && t[|whole| + 1..] == frac;
  }

  lemma FirstIndexAt(s: string, c: char, i: nat)
    requires i < |s| && s[i] == c && forall k :: 0 <= k < i ==> s[k] != c
    ensures FirstIndex(s, c) == i
  {
  }

  /** `whole.frac` holds digits and one period only. */
  lemma DecimalChars(whole: string, frac: string)
    requires AllDigits(whole) && AllDigits(frac)
    ensures var t := whole + "." + frac;
      forall k :: 0 <= k < |t| ==> IsDigit(t[k]) || t[k] == '.'
  {
    var t := whole + "." + frac;
    forall k | 0 <= k < |t|
      ensures IsDigit(t[k]) || t[k] == '.'
    {
      if k < |whole| {
        assert t[k] == whole[k];
      } else if k > |whole| {
        assert t[k] == frac[k - |whole| - 1];
      }
    }
  }

  /** The comma of `whole,frac` becomes a period. */
  lemma CommaNormalized(whole: string, frac: string)
    requires AllDigits(whole) && AllDigits(frac)
    ensures Normalize(whole + "," + frac) == whole + "." + frac
  {
    var s := whole + "," + frac;
    DigitsHaveNoSigns(whole);
    ReplaceFirstCommaAt(s, |whole|);
    assert s[..|whole|] == whole && s[|whole| + 1..] == frac;
    DecimalChars(whole, frac);
    NoSeparatorsKept(whole + "." + frac);
    ReplaceFirstCommaAt(whole + "." + frac, |whole + "." + frac|);
  }

  /** A comma or a period works as the decimal separator. */
  lemma ParseDecimalSeparators(whole: string, frac: string)
    requires AllDigits(whole) && AllDigits(frac) && |whole| + |frac| > 0
    ensures ParseDecimal(whole + "," + frac) == DecimalValue(whole, frac)
    ensures ParseDecimal(whole + "." + frac) == DecimalValue(whole, frac)
  {
    var dotted := whole + "." + frac;
    CommaNormalized(whole, frac);
    DecimalChars(whole, frac);
    NoSeparatorsKept(dotted);
    assert dotted[0] != '-' && dotted[0] != '+' by {
      assert IsDigit(dotted[0]) || dotted[0] == '.';
    }
    UnsignedDecimal(whole, frac);
  }

  /** Only the first comma counts: a second one makes the text unparseable,
      and it reads as 0. */
  lemma SecondCommaReadsZero(whole: string, frac: string, rest: string)
    requires AllDigits(whole) && AllDigits(frac) && AllDigits(rest)
    ensures ParseDecimal(whole + "," + frac + "," + rest) == 0.0
  {
    var tail := frac + "," + rest;
    assert whole + "," + frac + "," + rest == whole + "," + tail;
    assert tail[|frac|] == ',';
    FirstCommaReplaced(whole, tail);
    var t := whole + "." + tail;
    assert forall k :: 0 <= k < |t| ==> !IsSpace(t[k]) by {
      forall k | 0 <= k < |t|
        ensures !IsSpace(t[k])
      {
        if k < |whole| {
          assert t[k] == whole[k];
        } else if |whole| < k < |whole| + 1 + |frac| {
          assert t[k] == frac[k - |whole| - 1];
        } else if k > |whole| + 1 + |frac| {
          assert t[k] == rest[k - |whole| - |frac| - 2];
        }
      }
    }
    RemoveSpacesKept(t);
    assert Normalize(whole + "," + tail) == t;
    UnsignedRejects(whole, tail);
    assert t[0] != '-' && t[0] != '+' by {
      if |whole| > 0 {
        assert t[0] == whole[0];
      }
    }
  }

  /** The comma after a digit string is the one replaced. */
  lemma FirstCommaReplaced(whole: string, tail: string)
    requires AllDigits(whole)
    ensures ReplaceFirstComma(whole + "," + tail) == whole + "." + tail
  {
    var s := whole + "," + tail;
    DigitsHaveNoSigns(whole);
    ReplaceFirstCommaAt(s, |whole|);
    assert s[..|whole|] == whole && s[|whole| + 1..] == tail;
  }

  /** After the first period, anything but digits makes the text unparseable. */
  lemma UnsignedRejects(whole: string, tail: string)
    requires AllDigits(whole) && !AllDigits(tail)
    ensures UnsignedNumber(whole + "." + tail).None?
  {
    var t := whole + "." + tail;
    DigitsHaveNoSigns(whole);
    assert FirstIndex(t, '.') == |whole| by {
      forall k | 0 <= k < |whole|
        ensures t[k] != '.'
      {
        assert t[k] == whole[k];
      }
      FirstIndexAt(t, '.', |whole|);
    }
    assert t[|whole| + 1..] == tail;
  }

  // ----- committing a value -----

  /** The guard on every commit: not negative, and within the bounds given. */
  predicate Accepts(x: real, min: Option<real>, max: Option<real>) {
    x >= 0.0 && (min.None? || x >= min.value) && (max.None? || x <= max.value)
  }

  /** The value a text commits through `onChange`, if any: the parsed number
      times the multiplier, when the guard accepts it. */
  function Commit(text: string, multiplier: real, min: Option<real>, max: Option<real>): (r: Option<real>)
    ensures r.Some? <==> Accepts(ParseDecimal(text) * multiplier, min, max)
    ensures r.Some? ==> r.value == ParseDecimal(text) * multiplier && r.value >= 0.0
  {
    var x := ParseDecimal(text) * multiplier;
    if Accepts(x, min, max) then Some(x) else None
  }

  /** A negative value is never committed, even where the lower bound allows
      it (the rent-growth field has -10 as its minimum). */
  lemma NegativeNeverCommitted(text: string, multiplier: real, min: Option<real>, max: Option<real>)
    requires ParseDecimal(text) * multiplier < 0.0
    ensures Commit(text, multiplier, min, max).None?
  {
  }

  /** Re-entering the number on display restores the value: the display
      divides by the multiplier and a commit multiplies by it. */
  lemma RecommitDisplayed(text: string, value: real, multiplier: real, min: Option<real>, max: Option<real>)
    requires multiplier != 0.0 && ParseDecimal(text) == value / multiplier
    requires Accepts(value, min, max)
    ensures Commit(text, multiplier, min, max) == Some(value)
  {
    assert ParseDecimal(text) * multiplier == value;
  }

  /** The component's state: the form's value it shows, the text being edited
      (`null` when not editing) and whether it has the focus. A commit stands
      for `onChange`, after which the form passes the committed value back. */
  class NumericInputState {
    const multiplier: real
    const min: Option<real>
    const max: Option<real>
    var value: real
    var local: Option<string>
    var isFocused: bool

    constructor (value: real, multiplier: real, min: Option<real>, max: Option<real>)
      requires multiplier != 0.0
      ensures this.value == value && this.multiplier == multiplier && this.min == min && this.max == max
      ensures local == None && !isFocused
    {
      this.value := value;
      this.multiplier := multiplier;
      this.min := min;
      this.max := max;
      local := None;
      isFocused := false;
    }

    /** `displayValue`: the value in the field's own unit. */
    function DisplayValue(): real
      reads this
      requires multiplier != 0.0
    {
      value / multiplier
    }

    /** `showValue`: the text being edited while focused, otherwise the
      formatted display value `formatted`. */
    function ShowValue(formatted: string): (r: string)
      reads this
      ensures isFocused && local.Some? ==> r == local.value
      ensures !isFocused || local.None? ==> r == formatted
    {
      if isFocused && local.Some? then local.value else formatted
    }

    /** `handleChange`: keep the raw text and commit it if the guard accepts it. */
    method HandleChange(raw: string) returns (committed: Option<real>)
      modifies this
      ensures local == Some(raw) && isFocused == old(isFocused)
      ensures committed == Commit(raw, multiplier, min, max)
      ensures value == if committed.Some? then committed.value else old(value)
    {
      local := Some(raw);
      committed := Commit(raw, multiplier, min, max);
      if committed.Some? {
        value := committed.value;
      }
    }

    /** `handleBlur`: leave editing and commit the edited text, if there is
      one and the guard accepts it. */
    method HandleBlur() returns (committed: Option<real>)
      modifies this
      ensures !isFocused && local == None
      ensures committed == if old(local).Some? then Commit(old(local).value, multiplier, min, max) else None
      ensures value == if committed.Some? then committed.value else old(value)
    {
      var text := local;
      isFocused := false;
      local := None;
      committed := None;
      if text.Some? {
        committed := Commit(text.value, multiplier, min, max);
        if committed.Some? {
          value := committed.value;
        }
      }
    }

    /** `handleFocus`: start editing from `shown`, the display value as
      `formatForDisplay` prints it. */
    method HandleFocus(shown: string)
      modifies this
      ensures isFocused && local == Some(shown) && value == old(value)
    {
      isFocused := true;
      local := Some(shown);
    }
  }

  // ----- focus and blur with the Danish number format -----

  /** Three digits with leading zeros, for `r < 1000`. */
  function Pad3(r: nat): (s: string)
    requires r < 1000
    ensures |s| == 3 && AllDigits(s) && DigitsValue(s) == r
  {
    var s := [DigitChar(r / 100), DigitChar(r / 10 % 10), DigitChar(r % 10)];
    assert s[..2][..1] == [s[0]] && [s[0]][..0] == [];
    assert DigitsValue([s[0]]) == r / 100;
    assert DigitsValue(s[..2]) == r / 100 * 10 + r / 10 % 10;
    s
  }

  /** A whole number as `toLocaleString("da-DK")` prints it: groups of three
      digits separated by periods. */
  function GroupedText(n: nat): (s: string)
    ensures |s| > 0 && s[0] != '-' && s[0] != '+' && s[0] != '.'
    ensures forall k :: 0 <= k < |s| ==> IsDigit(s[k]) || s[k] == '.'
    ensures n >= 1000 <==> '.' in s
    decreases n
  {
    if n < 1000 then NatToString(n)
    else GroupedText(n / 1000) + "." + Pad3(n % 1000)
  }

  /** The same number printed without grouping, with digits only. */
  function PlainText(n: nat): (s: string)
    ensures AllDigits(s) && |s| > 0 && DigitsValue(s) == n
  {
    NatToStringRoundTrip(n);
    NatToString(n)
  }

  /** What a focus followed by a blur commits: the display text read back. */
  function FocusBlurCommit(shown: string, multiplier: real, min: Option<real>, max: Option<real>): Option<real> {
    Commit(shown, multiplier, min, max)
  }

  /** As written, a whole display value of a thousand or more, printed with
      period grouping, reads back as the value divided by 1000 when it has one
      separator and as 0 when it has more. */
  lemma GroupedTextMisread(n: nat)
    requires n >= 1000
    ensures ParseDecimal(GroupedText(n)) == if n < 1000000 then n as real / 1000.0 else 0.0
  {
    if n < 1000000 {
      GroupedTextOneSeparator(n);
    } else {
      GroupedTextTwoSeparators(n);
    }
  }

  /** Digits and periods without a sign in front are read by the unsigned parse. */
  lemma ParseUnsigned(s: string)
    requires |s| > 0 && s[0] != '-' && s[0] != '+'
    requires forall k :: 0 <= k < |s| ==> IsDigit(s[k]) || s[k] == '.'
    ensures ParseDecimal(s) == match UnsignedNumber(s) case Some(x) => x case None => 0.0
  {
    NoSeparatorsKept(s);
  }

  /** One separator: the digits after it are read as a fraction. */
  lemma GroupedTextOneSeparator(n: nat)
    requires 1000 <= n < 1000000
    ensures ParseDecimal(GroupedText(n)) == n as real / 1000.0
  {
    var head := NatToString(n / 1000);
    var tail := Pad3(n % 1000);
    assert GroupedText(n) == head + "." + tail;
    ParseUnsigned(head + "." + tail);
    UnsignedDecimal(head, tail);
    NatToStringRoundTrip(n / 1000);
    assert TenTo(3) == 1000.0;
    assert n == n / 1000 * 1000 + n % 1000;
  }

  /** Two or more separators: the text after the first is not a digit string. */
  lemma GroupedTextTwoSeparators(n: nat)
    requires n >= 1000000
    ensures ParseDecimal(GroupedText(n)) == 0.0
  {
    var s := GroupedText(n);
    var head := GroupedText(n / 1000);
    assert s == head + "." + Pad3(n % 1000);
    ParseUnsigned(s);
    assert '.' in head;
    var j :| 0 <= j < |head| && head[j] == '.';
    var i := FirstIndex(s, '.');
    assert s[j] == '.';
    assert i <= j && i < |s|;
    var frac := s[i + 1..];
    assert frac[|head| - i - 1] == '.';
    assert !AllDigits(frac);
  }

  /** Text of digits and periods goes through normalisation unchanged. */
  lemma NoSeparatorsKept(s: string)
    requires forall k :: 0 <= k < |s| ==> IsDigit(s[k]) || s[k] == '.'
    ensures Normalize(s) == s
  {
    ReplaceFirstCommaAt(s, |s|);
    RemoveSpacesKept(s);
  }

  /** So focusing and leaving a thousands-scale price field showing 5000
      (that is 5,000,000) commits 5000 without a key being pressed. */
  lemma GroupedFocusBlurShrinksPrice()
    ensures FocusBlurCommit(GroupedText(5000), 1000.0, Some(1.0), None) == Some(5000.0)
  {
    GroupedTextMisread(5000);
  }

  /** In the actual scale the default gross rent of 450,000 shows as
      "450.000", and a focus followed by a blur commits 450. */
  lemma GroupedFocusBlurShrinksRent()
    ensures FocusBlurCommit(GroupedText(450000), 1.0, Some(1.0), None) == Some(450.0)
  {
    GroupedTextMisread(450000);
  }

  /** Printed without grouping, the display value reads back exactly, so a
      focus followed by a blur commits the value the field already had (or
      nothing, if the guard rejects it). */
  lemma PlainFocusBlurRestores(n: nat, multiplier: real, min: Option<real>, max: Option<real>)
    ensures FocusBlurCommit(PlainText(n), multiplier, min, max)
      == if Accepts(n as real * multiplier, min, max) then Some(n as real * multiplier) else None
  {
    PlainTextReadsBack(n);
    CommitOfValue(PlainText(n), n as real, multiplier, min, max);
  }

  /** A text's commit depends on the number it reads as. */
  lemma CommitOfValue(text: string, x: real, multiplier: real, min: Option<real>, max: Option<real>)
    requires ParseDecimal(text) == x
    ensures Commit(text, multiplier, min, max) == if Accepts(x * multiplier, min, max) then Some(x * multiplier) else None
  {
    var y := x * multiplier;
    assert ParseDecimal(text) * multiplier == y;
    if Accepts(y, min, max) {
      assert Commit(text, multiplier, min, max) == Some(y);
    } else {
      assert Commit(text, multiplier, min, max) == None;
    }
  }

  /** Digits without grouping read back as the number printed. */
  lemma PlainTextReadsBack(n: nat)
    ensures ParseDecimal(PlainText(n)) == n as real
  {
    var s := PlainText(n);
    DigitsHaveNoSigns(s);
    ParseUnsigned(s);
    assert FirstIndex(s, '.') == |s|;
  }
}
