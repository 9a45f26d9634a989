/** `value_numeric` of a lab test (tools/health-mcp/src/health_mcp.py:202-208):
    the text check the mapper applies and Python's `float` on the texts that pass it. */
module LabValues {
  import opened Wrappers
  import opened Text
  import opened PyJson

  predicate AllDigits(s: string) {
    forall i :: 0 <= i < |s| ==> IsDigit(s[i])
  }

  /** The natural number a run of decimal digits spells. */
  function DigitsValue(s: string): nat
    requires AllDigits(s)
  {
    if s == [] then 0 else DigitsValue(s[..|s| - 1]) * 10 + DigitValue(s[|s| - 1])
  }

  function Pow10(n: nat): (r: nat)
    ensures r > 0
  {
    if n == 0 then 1 else 10 * Pow10(n - 1)
  }

  /** Python `float(t)` on a text made only of digits, '.' and '-': an optional
      leading '-', digits with at most one '.', and at least one digit. */
  function ParseDecimal(t: string): Option<real> {
    var negative := t != [] && t[0] == '-';
    var body := if negative then t[1..] else t;
    var dot := Find(body, '.');
    var whole := if dot < 0 then body else body[..dot];
    var fraction := if dot < 0 then [] else body[dot + 1..];
    if AllDigits(whole) && AllDigits(fraction) && |whole| + |fraction| > 0 then
      var magnitude := if fraction == [] then DigitsValue(whole) as real
        else DigitsValue(whole) as real + DigitsValue(fraction) as real / Pow10(|fraction|) as real;
      Some(if negative then -magnitude else magnitude)
    else None
  }

  /** `value_numeric` of a lab record, from `test.get("Test_Value", "")`: the stripped
      text must be digits once '.' and '-' are dropped, and then parse as a float;
      a JSON number passes through; any other value leaves the key unset. */
  function LabNumeric(v: Json): (r: Json)
    ensures r != JNull ==> r.JNum?
    ensures v.JStr? && r.JNum? ==>
      var t := Strip(v.s); t != [] && forall i :: 0 <= i < |t| ==> IsDigit(t[i]) || t[i] == '.' || t[i] == '-'
  {
    match v
    case JStr(s) =>
      var t := Strip(s);
      var bare := Replace(Replace(t, '.', ""), '-', "");
      if t != [] && bare != [] && AllDigits(bare) then
        assert forall i :: 0 <= i < |t| ==> IsDigit(t[i]) || t[i] == '.' || t[i] == '-' by {
          DroppedCharsAreDigits(t, bare);
        }
        match ParseDecimal(t)
        case Some(x) => JNum(x)
        case None => JNull
      else JNull
    case JNum(x) => v
    case _ => JNull
  }

  /** A text whose '.'- and '-'-free form is all digits has no other characters. */
  lemma DroppedCharsAreDigits(t: string, bare: string)
    requires bare == Replace(Replace(t, '.', ""), '-', "") && AllDigits(bare)
    ensures forall i :: 0 <= i < |t| ==> IsDigit(t[i]) || t[i] == '.' || t[i] == '-'
  {
    forall i | 0 <= i < |t| ensures IsDigit(t[i]) || t[i] == '.' || t[i] == '-' {
      if !(t[i] == '.' || t[i] == '-') {
        ReplaceKeeps(t, '.', "", i);
        var step := Replace(t, '.', "");
        var j := KeptIndex(t, '.', "", i);
        ReplaceKeeps(step, '-', "", j);
      }
    }
  }

  /** Where a kept character of `s` lands in `Replace(s, target, "")`. */
  function KeptIndex(s: string, target: char, repl: string, i: nat): nat
    requires i < |s| && repl == []
    decreases i
  {
    if i == 0 then 0 else (if s[0] == target then 0 else 1) + KeptIndex(s[1..], target, repl, i - 1)
  }

  lemma {:induction false} ReplaceKeeps(s: string, target: char, repl: string, i: nat)
    requires i < |s| && repl == [] && s[i] != target
    ensures KeptIndex(s, target, repl, i) < |Replace(s, target, repl)|
    ensures Replace(s, target, repl)[KeptIndex(s, target, repl, i)] == s[i]
    decreases i
  {
    if i > 0 {
      ReplaceKeeps(s[1..], target, repl, i - 1);
    }
  }

  /** The digits of a natural number spell that number. */
  lemma {:induction false} DigitsOfNat(n: nat)
    ensures AllDigits(NatToString(n)) && DigitsValue(NatToString(n)) == n
  {
    if n >= 10 {
      DigitsOfNat(n / 10);
      var s := NatToString(n);
      assert s[..|s| - 1] == NatToString(n / 10);
    }
  }

  lemma {:induction false} StripDigits(s: string)
    requires AllDigits(s)
    ensures Strip(s) == s
  {
    if s != [] {
      assert !IsSpace(s[0]) && !IsSpace(s[|s| - 1]);
    }
  }

  /** `float` of a plain run of digits is its value. */
  lemma ParseDigits(digits: string)
    requires digits != [] && AllDigits(digits)
    ensures ParseDecimal(digits) == Some(DigitsValue(digits) as real)
  {
    assert '.' !in digits;
    assert Find(digits, '.') == -1;
  }

  /** `t` is kept by `strip()`, its '.'- and '-'-free form is the non-empty run
      `digits`, and `float` reads it as `x`. */
  predicate PassesCheck(t: string, digits: string, x: real) {
    t != [] && Strip(t) == t && digits != [] && AllDigits(digits)
    && Replace(Replace(t, '.', ""), '-', "") == digits && ParseDecimal(t) == Some(x)
  }

  /** A text that `strip()` keeps, whose '.'- and '-'-free form is digits, and which
      `float` reads, gives that number. */
  lemma LabNumericOfText(t: string, digits: string, x: real)
    requires PassesCheck(t, digits, x)
    ensures LabNumeric(JStr(t)) == JNum(x)
  {
  }

  /** A run of digits reads as its value. */
  lemma LabNumericOfDigits(digits: string)
    requires digits != [] && AllDigits(digits)
    ensures LabNumeric(JStr(digits)) == JNum(DigitsValue(digits) as real)
  {
    StripDigits(digits);
    assert '.' !in digits && '-' !in digits;
    ParseDigits(digits);
    LabNumericOfText(digits, digits, DigitsValue(digits) as real);
  }

  /** Python's `str` of a natural number reads back to that number. */
  lemma LabNumericOfNatural(n: nat)
    ensures LabNumeric(JStr(NatToString(n))) == JNum(n as real)
  {
    DigitsOfNat(n);
    LabNumericOfDigits(NatToString(n));
  }
}
