/** JavaScript values and the handful of language operations the domain code relies on:
    truthiness, `||`, `??`, destructuring defaults, `===`, string conversion in template
    literals, `Number(...)`, `parseInt(...)`, `toLowerCase()`, object spread and the
    array methods `map`, `filter` and `find`. */
module JsValues {

  datatype Option<+T> = None | Some(value: T)

  /** A value as it arrives in a JSON response or a form. Numbers are integers here;
      NaN is kept apart because `Number(...)` and `parseInt(...)` produce it. */
  datatype JsValue =
    | Undef
    | Null
    | Bool(b: bool)
    | Num(n: int)
    | NaN
    | Str(s: string)
    | Arr(items: seq<JsValue>)
    | Obj(props: map<string, JsValue>)

  /** The own properties of a plain object. */
  type Bag = map<string, JsValue>

  /** What a JavaScript operation can throw: a TypeError from the language, or a failed request. */
  datatype Error = TypeError | RequestFailed

  datatype Result<+T> = Ok(value: T) | Err(error: Error)

  predicate Nullish(v: JsValue) {
    v.Undef? || v.Null?
  }

  predicate Truthy(v: JsValue) {
    match v
    case Undef => false
    case Null => false
    case NaN => false
    case Bool(b) => b
    case Num(n) => n != 0
    case Str(s) => s != ""
    case Arr(_) => true
    case Obj(_) => true
  }

  /** `typeof v === 'number'` */
  predicate IsNumber(v: JsValue) {
    v.Num? || v.NaN?
  }

  /** `a || b`: the first operand when it is truthy, the second otherwise. */
  function Or(a: JsValue, b: JsValue): JsValue {
    if Truthy(a) then a else b
  }

  /** `a ?? b`: the first operand unless it is null or undefined. */
  function Coalesce(a: JsValue, b: JsValue): JsValue {
    if Nullish(a) then b else a
  }

  /** A destructuring or parameter default `x = d`: it replaces undefined only, never null. */
  function Default(v: JsValue, d: JsValue): JsValue {
    if v.Undef? then d else v
  }

  /** Reading key `k` of a plain object: a missing key reads as undefined. */
  function Get(m: Bag, k: string): JsValue {
    if k in m then m[k] else Undef
  }

  /** The named properties the code reads from `v` (by `v.k` or by destructuring `v`).
      Reading any property of null or undefined throws; other primitives and arrays own
      none of the named keys this code reads. */
  function Props(v: JsValue): Result<Bag> {
    if Nullish(v) then Err(TypeError)
    else if v.Obj? then Ok(v.props)
    else Ok(map[])
  }

  /** `v.k` for a value `v` that is known not to be null or undefined. */
  function Field(v: JsValue, k: string): JsValue {
    if v.Obj? then Get(v.props, k) else Undef
  }

  predicate Primitive(v: JsValue) {
    !v.Arr? && !v.Obj?
  }

  /** `a === b`. NaN equals nothing. Objects and arrays from a response are distinct
      references, so no composite value is identical to another one here. */
  predicate StrictEq(a: JsValue, b: JsValue) {
    Primitive(a) && !a.NaN? && a == b
  }

  /** SameValueZero, the equality of `Array.prototype.includes` and of `Map` keys:
      like `===` except that NaN equals NaN. */
  predicate SameValueZero(a: JsValue, b: JsValue) {
    Primitive(a) && a == b
  }

  /** The value of a `localStorage.getItem(...)` call: null when the key is absent. */
  function Stored(item: Option<string>): JsValue {
    match item
    case None => Null
    case Some(s) => Str(s)
  }

  // ---------------------------------------------------------------------------
  // String conversion, as in template literals `${v}`

  function DigitChar(d: nat): char
    requires d < 10
  {
    "0123456789"[d]
  }

  predicate IsDigit(c: char) {
    '0' <= c <= '9'
  }

  predicate AllDigits(s: string) {
    forall i :: 0 <= i < |s| ==> IsDigit(s[i])
  }

  function NatToStr(n: nat): (r: string)
    ensures |r| > 0 && AllDigits(r)
    decreases n
  {
    if n < 10 then [DigitChar(n)] else NatToStr(n / 10) + [DigitChar(n % 10)]
  }

  function IntToStr(i: int): string {
    if i < 0 then "-" + NatToStr(-i) else NatToStr(i)
  }

  /** `Array.prototype.join` with the default separator. */
  function Join(parts: seq<string>): string {
    if |parts| == 0 then ""
    else if |parts| == 1 then parts[0]
    else parts[0] + "," + Join(parts[1..])
  }

  /** `String(v)`, the conversion a template literal applies. An array joins its
      elements with commas, writing null and undefined elements as empty strings. */
  function ToStr(v: JsValue): string
    decreases v
  {
    match v
    case Undef => "undefined"
    case Null => "null"
    case Bool(b) => if b then "true" else "false"
    case Num(n) => IntToStr(n)
    case NaN => "NaN"
    case Str(s) => s
    case Arr(xs) =>
      Join(seq(|xs|, i requires 0 <= i < |xs| => if Nullish(xs[i]) then "" else ToStr(xs[i])))
    case Obj(_) => "[object Object]"
  }

  predicate StartsWith(s: string, prefix: string) {
    |prefix| <= |s| && s[..|prefix|] == prefix
  }

  predicate EndsWith(s: string, suffix: string) {
    |suffix| <= |s| && s[|s| - |suffix|..] == suffix
  }

  // ---------------------------------------------------------------------------
  // Case mapping

  function LowerChar(c: char): char {
    if 'A' <= c <= 'Z' then (c as int + 32) as char else c
  }

  /** `s.toLowerCase()` over the ASCII letters. */
  function Lower(s: string): (r: string)
    ensures |r| == |s|
    ensures forall i :: 0 <= i < |s| ==> r[i] == LowerChar(s[i])
  {
    seq(|s|, i requires 0 <= i < |s| => LowerChar(s[i]))
  }

  /** Lower-casing twice is lower-casing once. */
  lemma LowerIdempotent(s: string)
    ensures Lower(Lower(s)) == Lower(s)
  {
    assert forall i :: 0 <= i < |s| ==> LowerChar(LowerChar(s[i])) == LowerChar(s[i]);
  }

  // ---------------------------------------------------------------------------
  // Numeric conversion

  /** The value of a non-empty run of decimal digits, most significant first. */
  function DigitsValue(ds: string): nat
    requires AllDigits(ds)
    decreases |ds|
  {
    if |ds| == 0 then 0
    else DigitsValue(ds[..|ds| - 1]) * 10 + (ds[|ds| - 1] as int - '0' as int)
  }

  predicate IsSpace(c: char) {
    c == ' ' || c == '\t' || c == '\n' || c == '\r' || c as int == 11 || c as int == 12
  }

  function TrimStart(s: string): (r: string)
    ensures |r| <= |s|
    ensures |r| > 0 ==> !IsSpace(r[0])
    decreases |s|
  {
    if |s| > 0 && IsSpace(s[0]) then TrimStart(s[1..]) else s
  }

  function TrimEnd(s: string): (r: string)
    decreases |s|
  {
    if |s| > 0 && IsSpace(s[|s| - 1]) then TrimEnd(s[..|s| - 1]) else s
  }

  /** An optional sign followed by a non-empty run of digits, as an integer. */
  function SignedDecimal(t: string): Option<int> {
    if |t| > 1 && t[0] == '-' && AllDigits(t[1..]) then Some(-(DigitsValue(t[1..]) as int))
    else if |t| > 1 && t[0] == '+' && AllDigits(t[1..]) then Some(DigitsValue(t[1..]))
    else if |t| > 0 && AllDigits(t) then Some(DigitsValue(t))
    else None
  }

  /** `Number(s)` for a string: blank is 0, a signed decimal integer is its value. */
  function StrToNumber(s: string): JsValue {
    var t := TrimEnd(TrimStart(s));
    if t == "" then Num(0)
    else match SignedDecimal(t)
      case Some(n) => Num(n)
      case None => NaN
  }

  /** `Number(v)`. Arrays and objects convert through their string form. */
  function ToNumber(v: JsValue): (r: JsValue)
    ensures IsNumber(r)
    ensures IsNumber(v) ==> r == v
  {
    match v
    case Undef => NaN
    case Null => Num(0)
    case Bool(b) => if b then Num(1) else Num(0)
    case Num(_) => v
    case NaN => NaN
    case Str(s) => StrToNumber(s)
    case Arr(_) => StrToNumber(ToStr(v))
    case Obj(_) => StrToNumber(ToStr(v))
  }

  /** The longest prefix of `s` made of digits. */
  function DigitPrefix(s: string): (r: string)
    ensures AllDigits(r) && |r| <= |s| && r == s[..|r|]
    ensures |r| < |s| ==> !IsDigit(s[|r|])
  {
    if |s| > 0 && IsDigit(s[0]) then [s[0]] + DigitPrefix(s[1..]) else []
  }

  /** `parseInt(s)` in base 10: leading blanks, an optional sign, then as many digits
      as there are; no digit at all gives NaN. */
  function ParseInt(s: string): (r: JsValue)
    ensures r.Num? || r.NaN?
  {
    var t := TrimStart(s);
    var negative := |t| > 0 && t[0] == '-';
    var body := if |t| > 0 && (t[0] == '-' || t[0] == '+') then t[1..] else t;
    var ds := DigitPrefix(body);
    if ds == "" then NaN
    else if negative then Num(-(DigitsValue(ds) as int))
    else Num(DigitsValue(ds))
  }

  lemma {:induction false} DigitsValueOfNatToStr(n: nat)
    ensures DigitsValue(NatToStr(n)) == n
    decreases n
  {
    var s := NatToStr(n);
    if n >= 10 {
      DigitsValueOfNatToStr(n / 10);
      assert s[..|s| - 1] == NatToStr(n / 10);
    }
  }

  lemma {:induction false} DigitPrefixOfDigits(s: string)
    requires AllDigits(s)
    ensures DigitPrefix(s) == s
    decreases |s|
  {
    if |s| > 0 {
      DigitPrefixOfDigits(s[1..]);
    }
  }

  lemma ParseIntOfDigits(ds: string)
    requires |ds| > 0 && AllDigits(ds)
    ensures ParseInt(ds) == Num(DigitsValue(ds))
  {
    DigitPrefixOfDigits(ds);
    assert !IsSpace(ds[0]) && ds[0] != '-' && ds[0] != '+';
    assert TrimStart(ds) == ds;
  }

  lemma ParseIntOfNegativeDigits(ds: string)
    requires |ds| > 0 && AllDigits(ds)
    ensures ParseInt("-" + ds) == Num(-(DigitsValue(ds) as int))
  {
    DigitPrefixOfDigits(ds);
    var neg := "-" + ds;
    assert neg[0] == '-' && !IsSpace(neg[0]);
    assert TrimStart(neg) == neg;
    assert neg[1..] == ds;
  }

  /** A number written out with `String(n)` reads back with `parseInt`, which is how an
      id stored in the browser's storage comes back. */
  lemma ParseIntOfIntToStr(n: int)
    ensures ParseInt(IntToStr(n)) == Num(n)
  {
    var m: nat := if n < 0 then -n else n;
    DigitsValueOfNatToStr(m);
    if n < 0 {
      ParseIntOfNegativeDigits(NatToStr(m));
    } else {
      ParseIntOfDigits(NatToStr(m));
    }
  }

  // ---------------------------------------------------------------------------
  // Object spread

  /** The properties of `{...xs}` for an array: its elements under "0", "1", ... */
  function IndexBag(xs: seq<JsValue>): Bag
    decreases |xs|
  {
    if |xs| == 0 then map[]
    else IndexBag(xs[..|xs| - 1])[NatToStr(|xs| - 1) := xs[|xs| - 1]]
  }

  /** The properties `{...v}` copies: an object's own properties, the indexed elements
      of an array or the characters of a string, and nothing for other values. */
  function Spread(v: JsValue): Bag {
    match v
    case Obj(m) => m
    case Arr(xs) => IndexBag(xs)
    case Str(s) => IndexBag(seq(|s|, i requires 0 <= i < |s| => Str([s[i]])))
    case _ => map[]
  }

  // ---------------------------------------------------------------------------
  // Array methods whose callback may throw

  /** `xs.map(f)`: the callback runs left to right and the first throw ends the call. */
  function MapResult<T, U>(xs: seq<T>, f: T -> Result<U>): (r: Result<seq<U>>)
    ensures r.Ok? <==> forall i :: 0 <= i < |xs| ==> f(xs[i]).Ok?
    ensures r.Ok? ==> |r.value| == |xs| && forall i :: 0 <= i < |xs| ==> r.value[i] == f(xs[i]).value
    ensures r.Err? ==> exists i :: 0 <= i < |xs| && f(xs[i]) == Err(r.error)
                                   && forall j :: 0 <= j < i ==> f(xs[j]).Ok?
    decreases |xs|
  {
    if |xs| == 0 then Ok([])
    else
      match f(xs[0])
      case Err(e) => Err(e)
      case Ok(y) =>
        match MapResult(xs[1..], f)
        case Err(e) => Err(e)
        case Ok(ys) => Ok([y] + ys)
  }

  /** `xs.filter(p)`: keeps the elements whose callback returns true, in order; the
      first throw ends the call. */
  function FilterResult<T>(xs: seq<T>, p: T -> Result<bool>): (r: Result<seq<T>>)
    ensures r.Ok? <==> forall i :: 0 <= i < |xs| ==> p(xs[i]).Ok?
    ensures r.Ok? ==> |r.value| <= |xs|
    decreases |xs|
  {
    if |xs| == 0 then Ok([])
    else
      match p(xs[0])
      case Err(e) => Err(e)
      case Ok(keep) =>
        match FilterResult(xs[1..], p)
        case Err(e) => Err(e)
        case Ok(ys) => Ok(if keep then [xs[0]] + ys else ys)
  }

  /** Filtering a concatenation filters each part and concatenates the results, so the
      kept elements stay in their original order. */
  lemma {:induction false} FilterResultAppend<T>(xs: seq<T>, ys: seq<T>, p: T -> Result<bool>)
    requires FilterResult(xs, p).Ok? && FilterResult(ys, p).Ok?
    ensures FilterResult(xs + ys, p) == Ok(FilterResult(xs, p).value + FilterResult(ys, p).value)
    decreases |xs|
  {
    if |xs| == 0 {
      assert xs + ys == ys;
      assert FilterResult(xs, p) == Ok([]);
      assert [] + FilterResult(ys, p).value == FilterResult(ys, p).value;
    } else {
      assert (xs + ys)[0] == xs[0] && (xs + ys)[1..] == xs[1..] + ys;
      FilterResultAppend(xs[1..], ys, p);
      var rest := FilterResult(xs[1..], p).value;
      var tail := FilterResult(ys, p).value;
      if p(xs[0]) == Ok(true) {
        assert FilterResult(xs, p).value == [xs[0]] + rest;
        assert [xs[0]] + (rest + tail) == ([xs[0]] + rest) + tail;
      } else {
        assert FilterResult(xs, p).value == rest;
      }
    }
  }

  /** Filtering keeps exactly the elements whose callback returns true. */
  lemma {:induction false} FilterResultMembers<T>(xs: seq<T>, p: T -> Result<bool>)
    requires FilterResult(xs, p).Ok?
    ensures forall x :: x in FilterResult(xs, p).value <==> x in xs && p(x) == Ok(true)
    decreases |xs|
  {
    if |xs| > 0 {
      FilterResultMembers(xs[1..], p);
      assert forall x :: x in xs <==> x == xs[0] || x in xs[1..];
    }
  }

  /** Filtering keeps a list unchanged when every element passes. */
  lemma {:induction false} FilterResultAllKept<T>(xs: seq<T>, p: T -> Result<bool>)
    requires forall i :: 0 <= i < |xs| ==> p(xs[i]) == Ok(true)
    ensures FilterResult(xs, p) == Ok(xs)
    decreases |xs|
  {
    if |xs| > 0 {
      FilterResultAllKept(xs[1..], p);
      assert [xs[0]] + xs[1..] == xs;
    }
  }

  /** Filtering keeps nothing when no element passes. */
  lemma {:induction false} FilterResultNoneKept<T>(xs: seq<T>, p: T -> Result<bool>)
    requires forall i :: 0 <= i < |xs| ==> p(xs[i]) == Ok(false)
    ensures FilterResult(xs, p) == Ok([])
    decreases |xs|
  {
    if |xs| > 0 {
      FilterResultNoneKept(xs[1..], p);
    }
  }

  /** `v.filter(p)` on a value received from the server: only an array has `filter`. */
  function FilterArray(v: JsValue, p: JsValue -> Result<bool>): (r: Result<seq<JsValue>>)
    ensures !v.Arr? ==> r == Err(TypeError)
    ensures v.Arr? ==> r == FilterResult(v.items, p)
  {
    if v.Arr? then FilterResult(v.items, p) else Err(TypeError)
  }

  /** `xs.includes(x)`, which compares with SameValueZero. */
  predicate Includes(xs: seq<JsValue>, x: JsValue) {
    exists j :: 0 <= j < |xs| && SameValueZero(xs[j], x)
  }

  /** `xs.find(p)`: the first element satisfying `p`, or None. */
  function Find<T>(xs: seq<T>, p: T -> bool): (r: Option<T>)
    ensures r.None? <==> forall i :: 0 <= i < |xs| ==> !p(xs[i])
    ensures r.Some? ==> exists i :: 0 <= i < |xs| && xs[i] == r.value && p(xs[i])
                                    && forall j :: 0 <= j < i ==> !p(xs[j])
    decreases |xs|
  {
    if |xs| == 0 then None
    else if p(xs[0]) then Some(xs[0])
    else Find(xs[1..], p)
  }
}
