// JavaScript value conventions the hub relies on: optional strings
// (`undefined` or a string), truthiness, `a || b`, default parameters,
// template interpolation of `undefined`, and decimal rendering of numbers.
module JsValues {

  datatype Option<+T> = None | Some(value: T)

  /** A string value that JavaScript may leave `undefined` (an unset
      environment variable, a missing cookie, a missing field). */
  type JsString = Option<string>

  /** The truthiness of an optional string: `undefined` and `''` are falsy. */
  predicate Truthy(v: JsString)
  {
    v.Some? && v.value != ""
  }

  /** `v || fallback` on an optional string. */
  function Or(v: JsString, fallback: string): (r: string)
    ensures Truthy(v) ==> r == v.value
    ensures !Truthy(v) ==> r == fallback
  {
    if Truthy(v) then v.value else fallback
  }

  /** A default parameter `p = d`: applies only when the argument is `undefined`. */
  function WithDefault(v: JsString, d: string): (r: string)
    ensures v.Some? ==> r == v.value
    ensures v.None? ==> r == d
  {
    if v.Some? then v.value else d
  }

  /** `${v}` in a template literal, or `v` used as an object key. */
  function Interpolate(v: JsString): (r: string)
    ensures v.Some? ==> r == v.value
    ensures v.None? ==> r == "undefined"
  {
    if v.Some? then v.value else "undefined"
  }

  /** The environment variables the hub reads from `process.env`. */
  datatype ProcessEnv = ProcessEnv(
    homeUrl: JsString,          // HOME_URL
    ghClientId: JsString,       // GH_CLIENT_ID
    allowGithubLogins: JsString, // ALLOW_GITHUB_LOGINS
    v2rayConfigMap: JsString,   // V2RAY_CONFIG_MAP
    imageUrl: JsString,         // IMAGE_URL
    disableDocker: JsString,    // DISABLE_DOCKER
    aliyunVk: JsString          // ALIYUN_VK
  )

  /** `\d` in a JavaScript regular expression: the ASCII digits only. */
  predicate IsDigit(c: char)
  {
    '0' <= c <= '9'
  }

  predicate AllDigits(s: string)
  {
    forall i :: 0 <= i < |s| ==> IsDigit(s[i])
  }

  function DigitChar(d: nat): (c: char)
    requires d < 10
    ensures IsDigit(c)
  {
    "0123456789"[d]
  }

  function DigitValue(c: char): (d: nat)
    requires IsDigit(c)
    ensures d < 10 && DigitChar(d) == c
  {
    (c as int - '0' as int) as nat
  }

  /** The decimal text of a non-negative integer, as `String(n)` gives it. */
  function DecimalString(n: nat): (s: string)
    ensures |s| >= 1 && AllDigits(s)
    ensures n > 0 ==> s[0] != '0'
  {
    if n < 10 then [DigitChar(n)] else DecimalString(n / 10) + [DigitChar(n % 10)]
  }

  /** The number a run of decimal digits denotes. */
  function DecimalValue(s: string): (n: nat)
    requires AllDigits(s)
  {
    if s == [] then 0 else 10 * DecimalValue(s[..|s| - 1]) + DigitValue(s[|s| - 1])
  }

  lemma {:induction false} DecimalRoundTrip(n: nat)
    ensures DecimalValue(DecimalString(n)) == n
  {
    var s := DecimalString(n);
    if n < 10 {
      assert s[..0] == [];
    } else {
      DecimalRoundTrip(n / 10);
      assert s[..|s| - 1] == DecimalString(n / 10);
    }
  }

  /** `parts.join(sep)` on a non-empty array of strings. */
  function Join(parts: seq<string>, sep: char): (s: string)
    requires |parts| >= 1
  {
    if |parts| == 1 then parts[0] else parts[0] + [sep] + Join(parts[1..], sep)
  }

  /** Joining one more part appends the separator and that part. */
  lemma {:induction false} JoinSnoc(parts: seq<string>, x: string, sep: char)
    requires |parts| >= 1
    ensures Join(parts + [x], sep) == Join(parts, sep) + [sep] + x
    decreases |parts|
  {
    if |parts| > 1 {
      assert (parts + [x])[1..] == parts[1..] + [x];
      JoinSnoc(parts[1..], x, sep);
    } else {
      assert (parts + [x])[1..] == [x];
    }
  }

  /** `s.startsWith(p)`. */
  predicate IsPrefix(p: string, s: string)
  {
    |p| <= |s| && s[..|p|] == p
  }
}
