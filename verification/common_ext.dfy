/**
 * The small extension helpers of Common_ext.kt: the visible/gone mapping,
 * two-digit formatting, tolerant integer parsing and the bracketed rendering
 * of an intent's extras.
 */
module CommonExt {
  import opened Wrappers
  import opened Platform

  // ---------------------------------------------------------------- visibility

  /** The visibility `setVisible` writes: VISIBLE for true, GONE (never INVISIBLE) for false. */
  function VisibilityFor(visible: bool): (v: int)
    ensures v == VISIBLE || v == GONE
    ensures IsVisible(v) <==> visible
  {
    if visible then VISIBLE else GONE
  }

  /** `isVisible`: only VISIBLE counts as visible; GONE and INVISIBLE do not. */
  function IsVisible(visibility: int): (b: bool)
    ensures visibility == VISIBLE ==> b
    ensures visibility == GONE || visibility == INVISIBLE ==> !b
  {
    visibility == VISIBLE
  }

  // ---------------------------------------------------------------- decimal text

  const INT_MIN: int := -0x8000_0000
  const INT_MAX: int := 0x7fff_ffff

  /** Fits a Kotlin/Java Int. */
  predicate IsInt32(n: int) {
    INT_MIN <= n <= INT_MAX
  }

  predicate IsDigit(c: char) {
    '0' <= c <= '9'
  }

  predicate AllDigits(s: string) {
    forall i :: 0 <= i < |s| ==> IsDigit(s[i])
  }

  function DigitChar(d: nat): (c: char)
    requires d < 10
    ensures IsDigit(c) && c as int - '0' as int == d
  {
    ('0' as int + d) as char
  }

  function DigitValue(c: char): (d: nat)
    requires IsDigit(c)
    ensures d < 10 && DigitChar(d) == c
  {
    c as int - '0' as int
  }

  /** The number a run of decimal digits denotes, most significant digit first. */
  function DigitsValue(ds: string): nat
    requires AllDigits(ds)
  {
    if ds == [] then 0 else DigitsValue(ds[..|ds| - 1]) * 10 + DigitValue(ds[|ds| - 1])
  }

  /** Decimal text of a natural number as Integer.toString writes it: digits only,
      and a leading '0' only for zero itself. */
  function NatToString(n: nat): (s: string)
    ensures |s| > 0 && AllDigits(s)
    ensures s[0] == '0' <==> n == 0
    ensures n >= 10 <==> |s| >= 2
    decreases n
  {
    if n < 10 then [DigitChar(n)] else NatToString(n / 10) + [DigitChar(n % 10)]
  }

  /** `"$n"` for an Int: a minus sign for negatives, then the magnitude. */
  function IntToString(n: int): (s: string)
    ensures |s| > 0
    ensures s[0] == '-' <==> n < 0
    ensures n < 0 ==> s[1..] == NatToString(-n)
    ensures n >= 0 ==> s == NatToString(n)
  {
    if n < 0 then "-" + NatToString(-n) else NatToString(n)
  }

  lemma {:induction false} NatToStringValue(n: nat)
    ensures DigitsValue(NatToString(n)) == n
    decreases n
  {
    if n >= 10 {
      var s := NatToString(n);
      assert s[..|s| - 1] == NatToString(n / 10);
      NatToStringValue(n / 10);
    }
  }

  // ---------------------------------------------------------------- toDoubleFormatStr

  /** `Int.toDoubleFormatStr`: a "0" in front of every value below ten (negatives included). */
  function ToDoubleFormatStr(n: int): (s: string)
    ensures |s| >= 2
    ensures 0 <= n < 10 ==> |s| == 2 && s[0] == '0' && s[1] == DigitChar(n)
    ensures n >= 10 ==> s[0] != '0' && s == IntToString(n)
    ensures n < 0 ==> s == "0-" + NatToString(-n)
  {
    if n < 10 then "0" + IntToString(n) else IntToString(n)
  }

  // ---------------------------------------------------------------- toIntSafe

  /** `String.toInt()` (Integer.parseInt, radix 10): an optional sign, then at least
      one decimal digit, and the value must fit an Int; anything else is None (the
      NumberFormatException). */
  function ParseInt(s: string): (r: Option<int>)
    ensures r.Some? ==> IsInt32(r.value)
    ensures r.Some? ==> forall i :: 0 < i < |s| ==> IsDigit(s[i])
    ensures r.Some? ==> |s| > 0 && (IsDigit(s[0]) || (|s| >= 2 && (s[0] == '-' || s[0] == '+')))
    ensures r.Some? && r.value < 0 ==> |s| > 0 && s[0] == '-'
    ensures |s| > 0 && AllDigits(s) ==>
      r == if IsInt32(DigitsValue(s)) then Some(DigitsValue(s) as int) else None
    ensures |s| >= 2 && s[0] == '+' && AllDigits(s[1..]) ==>
      r == if IsInt32(DigitsValue(s[1..])) then Some(DigitsValue(s[1..]) as int) else None
    ensures |s| >= 2 && s[0] == '-' && AllDigits(s[1..]) ==>
      r == if IsInt32(-(DigitsValue(s[1..]) as int)) then Some(-(DigitsValue(s[1..]) as int)) else None
  {
    if s == [] then None
    else
      var digits := if s[0] == '-' || s[0] == '+' then s[1..] else s;
      if digits == [] || !AllDigits(digits) then None
      else
        var v: int := if s[0] == '-' then -(DigitsValue(digits) as int) else DigitsValue(digits);
        if IsInt32(v) then Some(v) else None
  }

  /** `String?.toIntSafe(default = -1)`: the parsed value, or the fallback for a null
      receiver and for text that does not parse. */
  function ToIntSafe(s: Option<string>, fallback: int := -1): (r: int)
    ensures s.None? ==> r == fallback
    ensures s.Some? && ParseInt(s.value).Some? ==> r == ParseInt(s.value).value
    ensures s.Some? && ParseInt(s.value).None? ==> r == fallback
    ensures IsInt32(fallback) ==> IsInt32(r)
  {
    match s
    case None => fallback
    case Some(text) =>
      match ParseInt(text)
      case Some(v) => v
      case None => fallback
  }

  /** Printing an integer and parsing it back gives it again exactly when it fits an Int. */
  lemma ParseIntToString(n: int)
    ensures ParseInt(IntToString(n)) == if IsInt32(n) then Some(n) else None
  {
    var s := IntToString(n);
    if n < 0 {
      assert s[1..] == NatToString(-n);
      NatToStringValue(-n);
    } else {
      NatToStringValue(n);
    }
  }

  /** toIntSafe of the decimal text of an Int returns that Int; of anything wider,
      the fallback. */
  lemma ToIntSafeRoundTrip(n: int, fallback: int)
    ensures ToIntSafe(Some(IntToString(n)), fallback) == if IsInt32(n) then n else fallback
  {
    ParseIntToString(n);
  }

  /** Text with a non-digit after its first character never parses. */
  lemma ToIntSafeMalformed(s: string, k: nat, fallback: int)
    requires 0 < k < |s| && !IsDigit(s[k])
    ensures ToIntSafe(Some(s), fallback) == fallback
  {
  }

  /** A leading zero does not change the value of a run of digits. */
  lemma {:induction false} LeadingZeroValue(d: string)
    requires AllDigits(d)
    ensures AllDigits("0" + d) && DigitsValue("0" + d) == DigitsValue(d)
    decreases |d|
  {
    var z := "0" + d;
    assert z[0] == '0' && z[1..] == d;
    if d == [] {
      assert z[..0] == [];
    } else {
      assert z[..|z| - 1] == "0" + d[..|d| - 1];
      LeadingZeroValue(d[..|d| - 1]);
    }
  }

  /** Integer.parseInt ignores leading zeros: "007" parses as "7" does. */
  lemma ParseIntLeadingZero(d: string)
    requires |d| > 0 && AllDigits(d)
    ensures ParseInt("0" + d) == ParseInt(d)
  {
    LeadingZeroValue(d);
  }

  /** An explicit '+' sign changes nothing: "+5" parses as "5" does. */
  lemma ParseIntPlusSign(d: string)
    requires |d| > 0 && AllDigits(d)
    ensures ParseInt("+" + d) == ParseInt(d)
  {
    assert ("+" + d)[1..] == d;
  }

  /** The zero-padded form of a non-negative Int parses back to the same Int;
      the "0-" form of a negative one does not parse at all. */
  lemma DoubleFormatParses(n: int)
    requires IsInt32(n)
    ensures n >= 0 ==> ParseInt(ToDoubleFormatStr(n)) == Some(n)
    ensures n < 0 ==> ParseInt(ToDoubleFormatStr(n)) == None
  {
    var s := ToDoubleFormatStr(n);
    if 0 <= n < 10 {
      var zero := ['0'];
      assert zero[..0] == [] && DigitsValue(zero) == 0;
      assert s[..1] == zero;
      assert DigitsValue(s) == n;
    } else if n >= 10 {
      NatToStringValue(n);
    } else {
      assert s[1] == '-' && !IsDigit(s[1]);
    }
  }

  // ---------------------------------------------------------------- toKeyValueString

  /** One extra of an intent's bundle; the value is its `toString()` text, None standing for null. */
  datatype Extra = Extra(key: string, value: Option<string>)

  /** An intent as far as the rendering sees it: its extras bundle, possibly absent. */
  datatype Intent = Intent(extras: Option<seq<Extra>>)

  /** String templates render a null value as "null". */
  function ValueText(v: Option<string>): string {
    match v
    case None => "null"
    case Some(t) => t
  }

  /** `"$key:${extras.get(key)}"` */
  function EntryText(e: Extra): string {
    e.key + ":" + ValueText(e.value)
  }

  /** The entries appended one after another, with no separator. */
  function EntriesText(es: seq<Extra>): string {
    if es == [] then "" else EntriesText(es[..|es| - 1]) + EntryText(es[|es| - 1])
  }

  /** The extras the loop visits: none for a null intent or a null bundle. */
  function ExtrasOf(intent: Option<Intent>): seq<Extra> {
    match intent
    case None => []
    case Some(i) =>
      match i.extras
      case None => []
      case Some(es) => es
  }

  /** Joining two runs of entries joins their texts. */
  lemma {:induction false} EntriesTextAppend(a: seq<Extra>, b: seq<Extra>)
    ensures EntriesText(a + b) == EntriesText(a) + EntriesText(b)
    decreases |b|
  {
    if b != [] {
      var last := b[|b| - 1];
      var init := b[..|b| - 1];
      assert (a + b)[..|a + b| - 1] == a + init;
      EntriesTextAppend(a, init);
    } else {
      assert a + b == a;
    }
  }

  /** Every entry's text sits between the texts of the entries before and after it. */
  lemma {:induction false} EntryInText(es: seq<Extra>, k: nat)
    requires k < |es|
    ensures EntriesText(es) == EntriesText(es[..k]) + EntryText(es[k]) + EntriesText(es[k + 1..])
  {
    var pre, mid, post := es[..k], [es[k]], es[k + 1..];
    assert es == (pre + mid) + post;
    EntriesTextAppend(pre + mid, post);
    EntriesTextAppend(pre, mid);
    assert mid[..0] == [];
    assert EntriesText(mid) == EntryText(es[k]);
  }

  /** `Intent?.toKeyValueString()`: "[" then every extra as key:value, then "]". */
  method ToKeyValueString(intent: Option<Intent>) returns (r: string)
    ensures r == "[" + EntriesText(ExtrasOf(intent)) + "]"
    ensures |r| >= 2 && r[0] == '[' && r[|r| - 1] == ']'
    ensures ExtrasOf(intent) == [] ==> r == "[]"
  {
    var extras := ExtrasOf(intent);
    var builder := "[";
    var i := 0;
    while i < |extras|
      invariant 0 <= i <= |extras|
      invariant builder == "[" + EntriesText(extras[..i])
    {
      assert extras[..i + 1][..i] == extras[..i];
      builder := builder + EntryText(extras[i]);
      i := i + 1;
    }
    assert extras[..i] == extras;
    builder := builder + "]";
    r := builder;
  }
}
