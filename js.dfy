/** The JavaScript values that the compiled printers read and log, and the
    few JavaScript operations they apply to them: a property read, `String(v)`,
    `v + s` with a string `s`, and the `| 0` coercion to a 32-bit integer. */
module Js {

  datatype Option<+T> = None | Some(value: T)

  /** A JavaScript value. Numbers are integral here; `null`, booleans and
      functions never reach the code this model covers. */
  datatype Value =
    | Undefined
    | Num(n: int)
    | Str(s: string)
    | Arr(items: seq<Value>)
    | Obj(props: map<string, Value>)

  /** A value whose properties can be read: reading a property of `undefined`
      throws a TypeError. */
  type Defined = v: Value | !v.Undefined? witness Num(0)

  // ---------------------------------------------------------------------
  // Decimal digits

  predicate IsDigit(c: char) { '0' <= c <= '9' }

  predicate AllDigits(s: string) {
    forall i :: 0 <= i < |s| ==> IsDigit(s[i])
  }

  function DigitChar(d: nat): (c: char)
    requires d < 10
    ensures IsDigit(c) && c as int - '0' as int == d
  {
    ('0' as int + d) as char
  }

  /** The decimal digits of `n`, most significant first, without a leading
      zero (so `0` alone is written "0"). */
  function NatString(n: nat): (s: string)
    ensures |s| > 0 && AllDigits(s)
    ensures s[0] == '0' <==> n == 0
    ensures n < 10 <==> |s| == 1
    decreases n
  {
    if n < 10 then [DigitChar(n)] else NatString(n / 10) + [DigitChar(n % 10)]
  }

  /** The natural number a string of decimal digits denotes. */
  function DigitsValue(s: string): (r: nat)
    requires AllDigits(s)
  {
    if s == [] then 0 else DigitsValue(s[..|s| - 1]) * 10 + (s[|s| - 1] as int - '0' as int)
  }

  /** Reading back the digits of `n` gives `n`. */
  lemma {:induction false} NatStringRoundTrip(n: nat)
    ensures DigitsValue(NatString(n)) == n
  {
    if n >= 10 {
      var s := NatString(n);
      assert s[..|s| - 1] == NatString(n / 10);
      NatStringRoundTrip(n / 10);
    }
  }

  /** A digit string whose first digit is not zero denotes a positive number. */
  lemma {:induction false} DigitsValuePositive(s: string)
    requires AllDigits(s) && |s| > 0 && s[0] != '0'
    ensures DigitsValue(s) > 0
  {
    if |s| > 1 {
      DigitsValuePositive(s[..|s| - 1]);
    }
  }

  /** A digit string without a leading zero is the rendering of the number it
      denotes: every such string renders exactly one number. */
  lemma {:induction false} NatStringOfDigits(s: string)
    requires AllDigits(s) && |s| > 0 && (s[0] != '0' || |s| == 1)
    ensures NatString(DigitsValue(s)) == s
  {
    if |s| > 1 {
      var init := s[..|s| - 1];
      NatStringOfDigits(init);
      DigitsValuePositive(init);
      var n := DigitsValue(s);
      assert n / 10 == DigitsValue(init);
      assert n % 10 == s[|s| - 1] as int - '0' as int;
      assert s == init + [s[|s| - 1]];
    }
  }

  /** `String(n)` for an integral number `n`. */
  function IntString(n: int): (s: string)
    ensures |s| > 0 && (s[0] == '-' <==> n < 0)
    ensures n < 0 ==> |s| > 1 && AllDigits(s[1..])
    ensures n >= 0 ==> AllDigits(s)
  {
    if n < 0 then "-" + NatString(-n) else NatString(n)
  }

  /** Reads an optional minus sign followed by decimal digits. */
  function ParseInt(s: string): (r: Option<int>) {
    if |s| > 0 && s[0] == '-' then
      if |s| > 1 && AllDigits(s[1..]) then
        var magnitude: int := DigitsValue(s[1..]);
        Some(-magnitude)
      else None
    else if |s| > 0 && AllDigits(s) then Some(DigitsValue(s))
    else None
  }

  /** The decimal text of an integer reads back as that integer. */
  lemma IntStringRoundTrip(n: int)
    ensures ParseInt(IntString(n)) == Some(n)
  {
    if n < 0 {
      NegativeRoundTrip(n);
    } else {
      NatStringRoundTrip(n);
    }
  }

  lemma NegativeRoundTrip(n: int)
    requires n < 0
    ensures ParseInt(IntString(n)) == Some(n)
  {
    var digits := NatString(-n);
    var s := "-" + digits;
    assert s[0] == '-' && s[1..] == digits;
    NatStringRoundTrip(-n);
  }

  // ---------------------------------------------------------------------
  // Property reads

  /** The element index a property key names: a decimal numeral without a
      leading zero. */
  function IndexOf(key: string): (i: Option<nat>)
    ensures i.Some? <==> |key| > 0 && AllDigits(key) && (key[0] != '0' || |key| == 1)
  {
    if |key| > 0 && AllDigits(key) && (key[0] != '0' || |key| == 1) then Some(DigitsValue(key)) else None
  }

  /** A key names index `i` exactly when it is the numeral of `i`. */
  lemma IndexOfNumeral(key: string, i: nat)
    ensures IndexOf(key) == Some(i) <==> key == NatString(i)
  {
    if key == NatString(i) {
      NatStringRoundTrip(i);
    }
    if IndexOf(key) == Some(i) {
      NatStringOfDigits(key);
    }
  }

  /** The property `key` of `v` (`v.key` or `v[key]`): an own property, an
      element of a string or an array, or the length of either; any other
      key reads as undefined. */
  function Get(v: Defined, key: string): (r: Value)
    ensures v.Num? ==> r == Undefined
    ensures v.Obj? ==> r == if key in v.props then v.props[key] else Undefined
    ensures v.Str? && key == "length" ==> r == Num(|v.s|)
    ensures v.Arr? && key == "length" ==> r == Num(|v.items|)
    ensures !v.Obj? && key != "length" && IndexOf(key).None? ==> r == Undefined
    ensures v.Str? && r != Undefined && key != "length" ==> r.Str? && |r.s| == 1
  {
    match v
    case Num(_) => Undefined
    case Str(s) =>
      if key == "length" then Num(|s|)
      else if IndexOf(key).Some? && IndexOf(key).value < |s| then Str([s[IndexOf(key).value]])
      else Undefined
    case Arr(items) =>
      if key == "length" then Num(|items|)
      else if IndexOf(key).Some? && IndexOf(key).value < |items| then items[IndexOf(key).value]
      else Undefined
    case Obj(props) => if key in props then props[key] else Undefined
  }

  /** `v[i]` with a numeric subscript, whose key is the numeral of `i`. */
  function Index(v: Defined, i: nat): (r: Value)
    ensures v.Arr? ==> r == if i < |v.items| then v.items[i] else Undefined
    ensures v.Str? ==> r == if i < |v.s| then Str([v.s[i]]) else Undefined
    ensures v.Num? ==> r == Undefined
  {
    IndexOfNumeral(NatString(i), i);
    Get(v, NatString(i))
  }

  // ---------------------------------------------------------------------
  // Conversions

  /** `String(v)`. An array is its elements joined by commas, undefined
      elements counting as empty; a plain object is "[object Object]". */
  function ToString(v: Value): (r: string)
    ensures v.Undefined? ==> r == "undefined"
    ensures v.Num? ==> r == IntString(v.n) && ParseInt(r) == Some(v.n)
    ensures v.Str? ==> r == v.s
    ensures v.Obj? ==> r == "[object Object]"
    decreases v, 1
  {
    match v
    case Undefined => "undefined"
    case Num(n) => IntStringRoundTrip(n); IntString(n)
    case Str(s) => s
    case Arr(items) => JoinItems(v, |items|)
    case Obj(_) => "[object Object]"
  }

  /** How an array element appears when the array is joined. */
  function ItemString(v: Value): (r: string)
    decreases v, 2
  {
    if v.Undefined? then "" else ToString(v)
  }

  /** `Array.prototype.join(",")` over the first `k` elements of `v`. */
  function JoinItems(v: Value, k: nat): (r: string)
    requires v.Arr? && k <= |v.items|
    decreases v, 0, k
  {
    if k == 0 then ""
    else if k == 1 then ItemString(v.items[0])
    else JoinItems(v, k - 1) + "," + ItemString(v.items[k - 1])
  }

  /** The strings joined by commas, built from the front. */
  function Join(parts: seq<string>): (r: string) {
    if |parts| == 0 then ""
    else if |parts| == 1 then parts[0]
    else parts[0] + "," + Join(parts[1..])
  }

  function ItemStrings(items: seq<Value>): (parts: seq<string>)
    ensures |parts| == |items|
  {
    seq(|items|, i requires 0 <= i < |items| => ItemString(items[i]))
  }

  /** Appending a part to a non-empty join adds a comma and the part. */
  lemma {:induction false} JoinSnoc(parts: seq<string>, last: string)
    requires |parts| > 0
    ensures Join(parts + [last]) == Join(parts) + "," + last
  {
    if |parts| > 1 {
      assert (parts + [last])[1..] == parts[1..] + [last];
      JoinSnoc(parts[1..], last);
    } else {
      assert (parts + [last])[1..] == [last];
    }
  }

  lemma {:induction false} JoinItemsIsJoin(v: Value, k: nat)
    requires v.Arr? && k <= |v.items|
    ensures JoinItems(v, k) == Join(ItemStrings(v.items[..k]))
  {
    if k > 1 {
      JoinItemsIsJoin(v, k - 1);
      var parts := ItemStrings(v.items[..k - 1]);
      assert ItemStrings(v.items[..k]) == parts + [ItemString(v.items[k - 1])];
      JoinSnoc(parts, ItemString(v.items[k - 1]));
    } else if k == 1 {
      assert ItemStrings(v.items[..1]) == [ItemString(v.items[0])];
    }
  }

  /** `String` of an array is its elements' strings joined by commas, an
      undefined element contributing the empty string. */
  lemma ArrayString(items: seq<Value>)
    ensures ToString(Arr(items)) == Join(ItemStrings(items))
  {
    JoinItemsIsJoin(Arr(items), |items|);
    assert items[..|items|] == items;
  }

  /** `v + s` where `s` is a string: `v` is converted to a primitive and then
      to a string, which for the values of this model gives `String(v)`; a
      string operand appears verbatim. */
  function PlusString(v: Value, s: string): (r: string)
    ensures r == ToString(v) + s
    ensures v.Str? ==> r == v.s + s
    ensures |r| >= |s| && r[|r| - |s|..] == s
  {
    ToString(v) + s
  }

  /** `n | 0`: the 32-bit two's complement integer congruent to `n`. */
  function ToInt32(n: int): (r: int)
    ensures -0x8000_0000 <= r < 0x8000_0000
    ensures (n - r) % 0x1_0000_0000 == 0
    ensures -0x8000_0000 <= n < 0x8000_0000 ==> r == n
  {
    (n + 0x8000_0000) % 0x1_0000_0000 - 0x8000_0000
  }
}
