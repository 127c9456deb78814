/** `formatStatNumber` of lib/helpers.ts: view and subscriber counts written with a K, M or B
    suffix. The digits of the scaled value come from `toFixed(1)` on a floating-point quotient,
    which this model leaves abstract. */
module StatNumbers {
  import opened Outcomes
  import opened JsText

  /** The longest prefix of decimal digits. */
  function DigitPrefix(s: string): (r: string)
    ensures |r| <= |s| && r == s[..|r|]
    ensures forall i :: 0 <= i < |r| ==> IsDigit(r[i])
    ensures |r| < |s| ==> !IsDigit(s[|r|])
  {
    if s != [] && IsDigit(s[0]) then [s[0]] + DigitPrefix(s[1..]) else []
  }

  /** `parseInt(s, 10)`; `None` is `NaN`. Leading white space and one sign are skipped, then the
      longest run of digits is read. */
  function ParseInt(s: string): Option<int> {
    var t := TrimStart(s);
    var negative := t != [] && t[0] == '-';
    var body := if t != [] && (t[0] == '-' || t[0] == '+') then t[1..] else t;
    var digits := DigitPrefix(body);
    var value: int := ValueOfDigits(digits);
    if digits == [] then None else Some(if negative then -value else value)
  }

  lemma {:induction false} DigitPrefixOfDigits(s: string)
    requires forall i :: 0 <= i < |s| ==> IsDigit(s[i])
    ensures DigitPrefix(s) == s
  {
    if s != [] { DigitPrefixOfDigits(s[1..]); }
  }

  /** `parseInt` reads back the decimal text of every integer. */
  lemma ParseIntOfIntToString(n: int)
    ensures ParseInt(IntToString(n)) == Some(n)
  {
    if n < 0 {
      ParseIntOfSigned("-", -n);
      assert IntToString(n) == "-" + Digits(-n);
    } else {
      ParseIntOfSigned("", n);
      assert IntToString(n) == "" + Digits(n);
    }
  }

  lemma ParseIntOfSigned(sign: string, m: nat)
    requires sign == "" || sign == "-"
    ensures ParseInt(sign + Digits(m)) == Some(if sign == "-" then -(m as int) else m as int)
  {
    var d := Digits(m);
    var s := sign + d;
    DigitPrefixOfDigits(d);
    ValueOfDigitsOfDigits(m);
    assert !IsWhiteSpace(s[0]) by {
      assert s[0] == '-' || IsDigit(s[0]);
    }
    assert TrimStart(s) == s;
    var body := if s[0] == '-' || s[0] == '+' then s[1..] else s;
    assert body == d;
  }

  /** Text whose first non-blank character is neither a digit nor a sign is `NaN`. */
  lemma ParseIntRejects(s: string)
    requires TrimStart(s) == [] || (!IsDigit(TrimStart(s)[0]) && TrimStart(s)[0] != '-' && TrimStart(s)[0] != '+')
    ensures ParseInt(s) == None
  {
  }

  /** The argument: a number, or a string that `parseInt` reads. */
  datatype StatInput = Number(value: int) | Text(text: string)

  /** The result: a plain string, or `value / unit` written by `toFixed(1)` with a trailing `.0`
      removed and `suffix` appended. */
  datatype StatLabel = Plain(text: string) | Scaled(value: int, unit: nat, suffix: string)

  const Thousand: nat := 1_000
  const Million: nat := 1_000_000
  const Billion: nat := 1_000_000_000

  function NumValue(num: StatInput): Option<int> {
    match num
    case Number(n) => Some(n)
    case Text(s) => ParseInt(s)
  }

  /** `formatStatNumber`: `'0'` for `NaN`, the plain integer below a thousand, and otherwise the
      largest of thousand, million and billion not above the value, with its letter. */
  function FormatStatNumber(num: StatInput): (r: StatLabel)
    ensures NumValue(num).None? ==> r == Plain("0")
    ensures NumValue(num).Some? && NumValue(num).value < Thousand ==>
              r == Plain(IntToString(NumValue(num).value)) && ParseInt(r.text) == NumValue(num)
    ensures NumValue(num).Some? && NumValue(num).value >= Thousand ==>
              && r.Scaled? && r.value == NumValue(num).value
              && r.unit <= r.value && (r.unit == Billion || r.value < r.unit * 1000)
              && ((r.unit == Billion && r.suffix == "B") || (r.unit == Million && r.suffix == "M") ||
                  (r.unit == Thousand && r.suffix == "K"))
  {
    match NumValue(num)
    case None => Plain("0")
    case Some(n) =>
      if n >= Billion then Scaled(n, Billion, "B")
      else if n >= Million then Scaled(n, Million, "M")
      else if n >= Thousand then Scaled(n, Thousand, "K")
      else
        ParseIntOfIntToString(n);
        Plain(IntToString(n))
  }

  /** `.replace(/\.0$/, '')`: removes one trailing `.0`. */
  function StripPointZero(fixed: string): string {
    if |fixed| >= 2 && fixed[|fixed| - 2..] == ".0" then fixed[..|fixed| - 2] else fixed
  }

  /** The text of a `Scaled` label, given the `toFixed(1)` text of its quotient. */
  function ScaledText(fixed: string, suffix: string): string {
    StripPointZero(fixed) + suffix
  }

  /** On `toFixed(1)` texts, a whole quotient loses its `.0` and any other keeps its tenth. */
  lemma StripPointZeroOnFixed(whole: nat, tenth: nat)
    requires tenth < 10
    ensures StripPointZero(Digits(whole) + "." + [DigitChar(tenth)]) ==
              if tenth == 0 then Digits(whole) else Digits(whole) + "." + [DigitChar(tenth)]
  {
    var s := Digits(whole) + "." + [DigitChar(tenth)];
    assert s[|s| - 2..] == ['.', DigitChar(tenth)];
    assert s[..|s| - 2] == Digits(whole);
  }
}
