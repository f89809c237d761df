/** The JavaScript values the application handles: JSON payloads handed to
    response callbacks, the `null`/`undefined` distinction, and the three
    JavaScript coercions the code relies on (truthiness, `String(x)` and the
    loose `==` against a number). */
module Json {

  /** `None` stands for JavaScript's `undefined` (or `null`, where said). */
  datatype Option<+T> = None | Some(value: T)

  /** A parsed JSON value. Numbers are integers in this model. */
  datatype Json =
    | JNull
    | JBool(b: bool)
    | JNum(n: int)
    | JStr(s: string)
    | JArr(items: seq<Json>)
    | JObj(fields: map<string, Json>)

  /** JavaScript truthiness, as used by `if (x)` and `x || y`. */
  predicate Truthy(j: Json)
  {
    match j
    case JNull => false
    case JBool(b) => b
    case JNum(n) => n != 0
    case JStr(s) => s != ""
    case JArr(_) => true
    case JObj(_) => true
  }

  /** The property read `j.key` on a non-null value; `None` is `undefined`.
      Only objects carry named properties in JSON. */
  function Property(j: Json, key: string): (r: Option<Json>)
    ensures r.Some? <==> j.JObj? && key in j.fields
    ensures r.Some? ==> r.value == j.fields[key]
  {
    if j.JObj? && key in j.fields then Some(j.fields[key]) else None
  }

  /** `j.length` on a non-null value: arrays and strings have one, objects may
      carry a property of that name, numbers and booleans have none. */
  function Length(j: Json): Option<Json>
  {
    match j
    case JArr(xs) => Some(JNum(|xs|))
    case JStr(s) => Some(JNum(|s|))
    case JObj(m) => Property(j, "length")
    case _ => None
  }

  /** `j[0]` on a non-null value. */
  function At0(j: Json): Option<Json>
  {
    match j
    case JArr(xs) => if |xs| > 0 then Some(xs[0]) else None
    case JStr(s) => if |s| > 0 then Some(JStr([s[0]])) else None
    case JObj(m) => Property(j, "0")
    case _ => None
  }

  function DigitChar(d: nat): char
    requires d < 10
  {
    "0123456789"[d]
  }

  /** Decimal text of a natural number, most significant digit first. */
  function NatToString(n: nat): (s: string)
    ensures |s| > 0
    ensures forall i :: 0 <= i < |s| ==> '0' <= s[i] <= '9'
    ensures n < 10 <==> |s| == 1
  {
    if n < 10 then [DigitChar(n)] else NatToString(n / 10) + [DigitChar(n % 10)]
  }

  /** `String(n)` for an integer. */
  function IntToString(n: int): (s: string)
    ensures |s| > 0
    ensures n < 0 <==> s[0] == '-'
  {
    if n < 0 then "-" + NatToString(-n) else NatToString(n)
  }

  lemma DigitCharInjective(a: nat, b: nat)
    requires a < 10 && b < 10 && DigitChar(a) == DigitChar(b)
    ensures a == b
  {
  }

  /** Distinct numbers have distinct decimal texts. */
  lemma {:induction false} NatToStringInjective(a: nat, b: nat)
    requires NatToString(a) == NatToString(b)
    ensures a == b
  {
    var sa, sb := NatToString(a), NatToString(b);
    if a < 10 || b < 10 {
      assert |sa| == 1 && |sb| == 1;
      assert a < 10 && b < 10;
      assert sa[0] == DigitChar(a) && sb[0] == DigitChar(b);
      DigitCharInjective(a, b);
    } else {
      var pa, pb := NatToString(a / 10), NatToString(b / 10);
      assert sa == pa + [DigitChar(a % 10)];
      assert sb == pb + [DigitChar(b % 10)];
      assert |pa| == |pb|;
      assert pa == sa[..|sa| - 1] && pb == sb[..|sb| - 1];
      NatToStringInjective(a / 10, b / 10);
      assert sa[|sa| - 1] == DigitChar(a % 10) && sb[|sb| - 1] == DigitChar(b % 10);
      DigitCharInjective(a % 10, b % 10);
    }
  }

  /** `String(n)` determines `n`. */
  lemma IntToStringInjective(a: int, b: int)
    requires IntToString(a) == IntToString(b)
    ensures a == b
  {
    if a < 0 {
      assert b < 0;
      assert NatToString(-a) == IntToString(a)[1..] == IntToString(b)[1..] == NatToString(-b);
      NatToStringInjective(-a, -b);
    } else {
      assert b >= 0;
      NatToStringInjective(a, b);
    }
  }

  /** `String(j)`, which is also what `'text' + j` appends. An array is
      joined with commas, its `null` elements giving the empty string. */
  function JsString(j: Json): string
    decreases j, 1
  {
    match j
    case JNull => "null"
    case JBool(b) => if b then "true" else "false"
    case JNum(n) => IntToString(n)
    case JStr(s) => s
    case JArr(xs) => JoinFrom(j, 0)
    case JObj(_) => "[object Object]"
  }

  /** The comma-joined text of the elements `i..` of the array `a`. */
  function JoinFrom(a: Json, i: nat): string
    requires a.JArr?
    decreases a, 0, |a.items| - i
  {
    if i >= |a.items| then ""
    else
      var item := if a.items[i].JNull? then "" else JsString(a.items[i]);
      (if i == 0 then "" else ",") + item + JoinFrom(a, i + 1)
  }

  /** Whether a string converts to the number `n` under `==`: only the
      canonical decimal spelling (and the empty string for 0) is modelled. */
  predicate NumericTextEquals(s: string, n: int)
  {
    s == IntToString(n) || (n == 0 && s == "")
  }

  /** The loose comparison `v == n` of a possibly undefined value with a number. */
  predicate LooseEqualsInt(v: Option<Json>, n: int)
  {
    match v
    case None => false
    case Some(j) =>
      match j
      case JNull => false
      case JBool(b) => (if b then 1 else 0) == n
      case JNum(k) => k == n
      case JStr(s) => NumericTextEquals(s, n)
      case JArr(_) => NumericTextEquals(JsString(j), n)
      case JObj(_) => false
  }
}
