/**
 * The values a configuration source can export, and the string coercion
 * `v + ''` that the reload rule uses to decide whether a watched key changed.
 */
module JsValues {

  datatype Option<+T> = None | Some(value: T)

  /**
   * The integers a JavaScript number holds exactly and prints digit for
   * digit: `Number.MIN_SAFE_INTEGER` to `Number.MAX_SAFE_INTEGER`.
   */
  const MaxSafeInteger: int := 0x1F_FFFF_FFFF_FFFF
  type SafeInteger = n: int | -MaxSafeInteger <= n <= MaxSafeInteger

  /**
   * A JavaScript value as it can appear in a configuration object.
   * Numbers are the safe integers; `Obj` is any plain object,
   * whose string form does not depend on its contents.
   */
  datatype Value =
    | Undefined
    | Null
    | Bool(b: bool)
    | Num(n: SafeInteger)
    | Str(s: string)
    | Arr(items: seq<Value>)
    | Obj

  function DigitChar(d: nat): (c: char)
    requires d < 10
    ensures '0' <= c <= '9'
  {
    (48 + d) as char
  }

  /** Decimal numeral of a natural number, most significant digit first. */
  function Decimal(n: nat): (s: string)
    ensures |s| >= 1
    ensures n < 10 <==> |s| == 1
    ensures forall i :: 0 <= i < |s| ==> '0' <= s[i] <= '9'
  {
    if n < 10 then [DigitChar(n)] else Decimal(n / 10) + [DigitChar(n % 10)]
  }

  /** `String(n)` for an integer-valued number. */
  function NumberToString(n: int): (s: string)
    ensures |s| >= 1 && (s[0] == '-' <==> n < 0)
  {
    if n < 0 then "-" + Decimal(-n) else Decimal(n)
  }

  /** `String(v)`, which is what `v + ''` yields. */
  function ToStr(v: Value): (r: string)
    decreases v, 1
  {
    match v
    case Undefined => "undefined"
    case Null => "null"
    case Bool(b) => if b then "true" else "false"
    case Num(n) => NumberToString(n)
    case Str(s) => s
    case Arr(items) => Join(v, |items|)
    case Obj => "[object Object]"
  }

  /**
   * `Array.prototype.join(',')` over the first `k` items of the array `v`:
   * `undefined` and `null` items become empty strings.
   */
  function Join(v: Value, k: nat): (r: string)
    requires v.Arr? && k <= |v.items|
    decreases v, 0, k
  {
    if k == 0 then ""
    else
      var item := v.items[k - 1];
      var text := if item.Undefined? || item.Null? then "" else ToStr(item);
      if k == 1 then text else Join(v, k - 1) + "," + text
  }

  /**
   * `m[key]` on a plain object: a key it does not own reads as `undefined`.
   * Keys inherited from `Object.prototype` are outside this model.
   */
  function Lookup(m: map<string, Value>, key: string): (r: Value)
  {
    if key in m then m[key] else Undefined
  }

  /** `oldConfig[p] + '' !== newConfig[p] + ''` */
  predicate Changed(oldConfig: map<string, Value>, newConfig: map<string, Value>, key: string)
  {
    ToStr(Lookup(oldConfig, key)) != ToStr(Lookup(newConfig, key))
  }

  lemma {:induction false} DecimalInjective(a: nat, b: nat)
    requires Decimal(a) == Decimal(b)
    ensures a == b
  {
    var s := Decimal(a);
    if a < 10 {
      assert b < 10;
      assert s[0] == DigitChar(a) && s[0] == DigitChar(b);
    } else {
      assert b >= 10;
      var t := Decimal(b);
      assert s[..|s| - 1] == Decimal(a / 10);
      assert t[..|t| - 1] == Decimal(b / 10);
      DecimalInjective(a / 10, b / 10);
      assert s[|s| - 1] == DigitChar(a % 10) && t[|t| - 1] == DigitChar(b % 10);
    }
  }

  /** Two different numbers never have the same string form. */
  lemma NumberStringsDistinct(a: int, b: int)
    requires a != b
    ensures NumberToString(a) != NumberToString(b)
  {
    if a < 0 && b < 0 {
      var s, t := NumberToString(a), NumberToString(b);
      if s == t {
        assert s[1..] == Decimal(-a) && t[1..] == Decimal(-b);
        DecimalInjective(-a, -b);
      }
    } else if a >= 0 && b >= 0 {
      if Decimal(a) == Decimal(b) {
        DecimalInjective(a, b);
      }
    }
  }

  /**
   * A watched key holding numbers on both sides counts as changed exactly
   * when the numbers differ.
   */
  lemma NumbersCompareByValue(oldConfig: map<string, Value>, newConfig: map<string, Value>, key: string, a: SafeInteger, b: SafeInteger)
    requires key in oldConfig && oldConfig[key] == Num(a)
    requires key in newConfig && newConfig[key] == Num(b)
    ensures Changed(oldConfig, newConfig, key) <==> a != b
  {
    if a != b {
      NumberStringsDistinct(a, b);
    }
  }

  /**
   * A number replaced by its own numeral (`1` by `"1"`) does not count as a
   * change, although the two values differ.
   */
  lemma NumeralDoesNotCountAsChange(oldConfig: map<string, Value>, newConfig: map<string, Value>, key: string, n: SafeInteger)
    requires key in oldConfig && oldConfig[key] == Num(n)
    requires key in newConfig && newConfig[key] == Str(NumberToString(n))
    ensures oldConfig[key] != newConfig[key]
    ensures !Changed(oldConfig, newConfig, key)
  {
  }

  /** A key that is absent and a key that holds `undefined` are the same to the rule. */
  lemma MissingKeyReadsAsUndefined(oldConfig: map<string, Value>, newConfig: map<string, Value>, key: string)
    requires key !in oldConfig
    ensures Changed(oldConfig, newConfig, key) <==> ToStr(Lookup(newConfig, key)) != "undefined"
  {
  }

  /**
   * `v + ''` is what the reload rule compares, so values that print alike
   * do not count as different: an array holding only `null` prints as the
   * empty string, a boolean as its name, a plain object as
   * `[object Object]`, and an array as its items joined by commas.
   */
  lemma CoercionCollisions()
    ensures ToStr(Arr([Null])) == ToStr(Str(""))
    ensures ToStr(Arr([Undefined, Null])) == ToStr(Str(","))
    ensures ToStr(Bool(true)) == ToStr(Str("true"))
    ensures ToStr(Obj) == ToStr(Str("[object Object]"))
    ensures ToStr(Arr([Num(1), Str("b")])) == ToStr(Str("1,b"))
    ensures ToStr(Arr([])) == ToStr(Str(""))
  {
    assert Decimal(1) == "1";
  }

  /**
   * A one-item array prints as its item, except that `undefined` and `null`
   * items print as the empty string.
   */
  lemma SingletonArrayPrintsItsItem(x: Value)
    ensures ToStr(Arr([x])) == if x.Undefined? || x.Null? then "" else ToStr(x)
  {
  }
}
