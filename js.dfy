/** The JavaScript values the client handles: what `response.json()` yields,
    plus `undefined` (a missing property). Numbers are integers here. */
module Js {
  import opened Wrappers

  datatype Json =
    | Undefined
    | Null
    | Bool(b: bool)
    | Num(n: int)
    | Str(s: string)
    | Arr(items: seq<Json>)
    | Obj(fields: map<string, Json>)

  /** JavaScript truthiness, as used by `||`, `&&`, `!x` and `Boolean(x)`. */
  predicate Truthy(v: Json) {
    match v
    case Undefined => false
    case Null => false
    case Bool(b) => b
    case Num(n) => n != 0
    case Str(s) => s != ""
    case Arr(_) => true
    case Obj(_) => true
  }

  /** `a || b`: the first operand when it is truthy, otherwise the second. */
  function Or(a: Json, b: Json): Json {
    if Truthy(a) then a else b
  }

  /** A value whose properties can be read without a TypeError. */
  predicate Readable(v: Json) {
    !v.Undefined? && !v.Null?
  }

  /** `v[key]` for a named property. `None` is the TypeError that reading a
      property of `null` or `undefined` throws; other non-objects have no
      own properties of the names the client reads, so they give `undefined`. */
  function Prop(v: Json, key: string): (r: Option<Json>)
    ensures r.None? <==> !Readable(v)
    ensures r.Some? && r.value != Undefined ==> v.Obj? && key in v.fields && v.fields[key] == r.value
    ensures v.Obj? ==> r == Some(if key in v.fields then v.fields[key] else Undefined)
    ensures Readable(v) && !v.Obj? ==> r == Some(Undefined)
  {
    match v
    case Undefined => None
    case Null => None
    case Obj(fields) => Some(if key in fields then fields[key] else Undefined)
    case _ => Some(Undefined)
  }

  /** `v?.key` (optional chaining): `undefined` instead of a TypeError. */
  function OptionalProp(v: Json, key: string): Json {
    Prop(v, key).GetOr(Undefined)
  }

  /** `{k1: v.k1, k2: v.k2, …}` for the given keys: `None` is the TypeError
      of reading a property of `null` or `undefined`. */
  function Pick(v: Json, keys: set<string>): (r: Option<map<string, Json>>)
    ensures r.None? <==> !Readable(v)
    ensures r.Some? ==> r.value.Keys == keys && forall k :: k in keys ==> r.value[k] == OptionalProp(v, k)
  {
    if Readable(v) then Some(map k | k in keys :: OptionalProp(v, k)) else None
  }

  /** `a === b` for values parsed from JSON: primitives compare by value,
      while two arrays or objects from separate parses are never identical. */
  predicate StrictEquals(a: Json, b: Json) {
    !a.Arr? && !a.Obj? && a == b
  }

  // ---- string length ---------------------------------------------------

  /** A character outside the Basic Multilingual Plane: JavaScript strings
      hold it as a surrogate pair of two UTF-16 code units. */
  predicate Astral(c: char) {
    c as int > 0xFFFF
  }

  /** `s.length`: the number of UTF-16 code units, one per character of the
      Basic Multilingual Plane and two per character beyond it. */
  function Utf16Length(s: string): (n: nat)
    ensures |s| <= n <= 2 * |s|
  {
    if |s| == 0 then 0 else (if Astral(s[0]) then 2 else 1) + Utf16Length(s[1..])
  }

  /** The code-unit count equals the character count exactly when no
      character lies beyond the Basic Multilingual Plane. */
  lemma {:induction false} Utf16LengthPlain(s: string)
    ensures Utf16Length(s) == |s| <==> forall i :: 0 <= i < |s| ==> !Astral(s[i])
  {
    if |s| > 0 {
      Utf16LengthPlain(s[1..]);
      if !Astral(s[0]) && forall i :: 0 <= i < |s| - 1 ==> !Astral(s[1..][i]) {
        forall i | 1 <= i < |s| ensures !Astral(s[i]) {
          assert s[i] == s[1..][i - 1];
        }
      }
      if forall i :: 0 <= i < |s| ==> !Astral(s[i]) {
        forall i | 0 <= i < |s| - 1 ensures !Astral(s[1..][i]) {
          assert s[1..][i] == s[i + 1];
        }
      }
    }
  }

  /** Lengths add up over concatenation, as `(a + b).length` does. */
  lemma {:induction false} Utf16LengthConcat(a: string, b: string)
    ensures Utf16Length(a + b) == Utf16Length(a) + Utf16Length(b)
  {
    if |a| > 0 {
      assert (a + b)[1..] == a[1..] + b;
      Utf16LengthConcat(a[1..], b);
    } else {
      assert a + b == b;
    }
  }

  /** One character beyond the Basic Multilingual Plane already has length 2,
      so a single emoji meets a minimum length of 2. */
  lemma AstralCharLength()
    ensures Utf16Length("\U{1F600}") == 2
  {
  }

  // ---- numbers as text -------------------------------------------------

  function DigitChar(d: nat): (c: char)
    requires d < 10
    ensures '0' <= c <= '9' && c as int - '0' as int == d
  {
    ('0' as int + d) as char
  }

  function DigitValue(c: char): nat
    requires '0' <= c <= '9'
  {
    (c as int - '0' as int) as nat
  }

  predicate AllDigits(s: string) {
    forall i :: 0 <= i < |s| ==> '0' <= s[i] <= '9'
  }

  /** The decimal digits of `n`, most significant first, with no leading zero. */
  function Digits(n: nat): (s: string)
    decreases n
  {
    if n < 10 then [DigitChar(n)] else Digits(n / 10) + [DigitChar(n % 10)]
  }

  /** `String(n)` for an integer. */
  function Decimal(n: int): string {
    if n < 0 then "-" + Digits(-n) else Digits(n)
  }

  /** The number a string of decimal digits denotes. */
  function DigitsValue(s: string): nat
    requires AllDigits(s)
  {
    if |s| == 0 then 0 else DigitsValue(s[..|s| - 1]) * 10 + DigitValue(s[|s| - 1])
  }

  /** `Number(s)` for a non-empty string, restricted to an optional minus sign
      followed by decimal digits; `None` is NaN. */
  function ParseInt(s: string): Option<int> {
    if |s| > 1 && s[0] == '-' && AllDigits(s[1..]) then Some(0 - DigitsValue(s[1..]) as int)
    else if |s| > 0 && AllDigits(s) then Some(DigitsValue(s) as int)
    else None
  }

  lemma {:induction false} DigitsRoundTrip(n: nat)
    ensures |Digits(n)| > 0 && Digits(n)[0] != '-'
    ensures AllDigits(Digits(n)) && DigitsValue(Digits(n)) == n
  {
    if n >= 10 {
      var prefix := Digits(n / 10);
      DigitsRoundTrip(n / 10);
      var s := prefix + [DigitChar(n % 10)];
      assert s[..|s| - 1] == prefix;
      assert s[0] == prefix[0];
      assert AllDigits(s) by {
        forall i | 0 <= i < |s| ensures '0' <= s[i] <= '9' {
          if i < |prefix| { assert s[i] == prefix[i]; }
        }
      }
      assert DigitsValue(s) == DigitsValue(prefix) * 10 + n % 10;
    } else {
      var s := [DigitChar(n)];
      assert s[..0] == [];
    }
  }

  /** Reading back the decimal text of an integer gives the integer: a value
      rendered into a form control as text is recovered by Yup's number cast. */
  lemma DecimalRoundTrip(n: int)
    ensures ParseInt(Decimal(n)) == Some(n)
  {
    if n < 0 {
      var digits := Digits(-n);
      DigitsRoundTrip(-n);
      var s := "-" + digits;
      assert s[1..] == digits;
      assert |s| > 1 && s[0] == '-' && AllDigits(s[1..]);
      assert ParseInt(s) == Some(0 - DigitsValue(digits) as int);
    } else {
      var digits := Digits(n);
      DigitsRoundTrip(n);
      assert !(|digits| > 1 && digits[0] == '-');
      assert ParseInt(digits) == Some(DigitsValue(digits) as int);
    }
  }

  // ---- String(v) ---------------------------------------------------------

  /** `String(v)`, as template literals and `alert` apply it: arrays join
      their elements with commas (null and undefined elements as empty text). */
  function ToText(v: Json): string
    decreases v
  {
    match v
    case Undefined => "undefined"
    case Null => "null"
    case Bool(b) => if b then "true" else "false"
    case Num(n) => Decimal(n)
    case Str(s) => s
    case Arr(items) =>
      JoinWithCommas(seq(|items|, i requires 0 <= i < |items| =>
        if Readable(items[i]) then ToText(items[i]) else ""))
    case Obj(_) => "[object Object]"
  }

  function JoinWithCommas(parts: seq<string>): string {
    if |parts| == 0 then ""
    else if |parts| == 1 then parts[0]
    else parts[0] + "," + JoinWithCommas(parts[1..])
  }

  /** The message of the TypeError thrown by reading `key` of `receiver`
      (null or undefined), in the wording of V8-based browsers. */
  function ReadErrorMessage(receiver: Json, key: string): string {
    "Cannot read properties of " + ToText(receiver) + " (reading '" + key + "')"
  }

  /** `JSON.stringify` of a flat object drops the properties whose value is
      `undefined`; the request bodies below are such objects. */
  function Serialized(values: map<string, Json>): (j: Json)
    ensures j.Obj?
    ensures forall k :: k in j.fields <==> k in values && values[k] != Undefined
    ensures forall k :: k in j.fields ==> j.fields[k] == values[k]
  {
    Obj(map k | k in values && values[k] != Undefined :: values[k])
  }
}
