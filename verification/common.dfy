/** Values every part of the StopLight client shares: the Result type that completes
    each callback, the app's error value, the part of SwiftyJSON the client reads,
    user credentials, and decimal rendering of integers. */
module Common {

  datatype Option<+T> = None | Some(value: T)

  /** An error as the app sees it: `StopNet.errorReason(message)` builds one, and
      URLSession and the session library hand back others. */
  datatype Error = Error(description: string)

  /** The library's `Result<T>`, the argument of every completion callback. */
  datatype Result<+T> = Success(value: T) | Failure(error: Error)

  /** The outcome of a foreign step that yields a fresh handle or fails. */
  datatype Outcome = Pass | Fail(error: Error)

  /** `User.Credentials`: what the credential prompt yields when submitted. */
  datatype Credentials = Credentials(username: string, password: string)

  /** A JSON value as SwiftyJSON exposes it (numbers are integers here). */
  datatype Json =
    | JString(str: string)
    | JNumber(num: int)
    | JBool(flag: bool)
    | JObject(fields: map<string, Json>)
    | JArray(items: seq<Json>)
    | JNull

  /** `json[key]`: the member of an object, or the null value for a missing key or a non-object. */
  function Field(j: Json, key: string): (r: Json)
    ensures r != JNull ==> j.JObject? && key in j.fields && r == j.fields[key]
    ensures j.JObject? && key in j.fields ==> r == j.fields[key]
  {
    if j.JObject? && key in j.fields then j.fields[key] else JNull
  }

  /** `json.string`: present only for a JSON string. */
  function StringOf(j: Json): (r: Option<string>)
    ensures r.Some? <==> j.JString?
    ensures r.Some? ==> j == JString(r.value)
  {
    if j.JString? then Some(j.str) else None
  }

  /** `json.dictionary`: present only for a JSON object. */
  function Dictionary(j: Json): (r: Option<map<string, Json>>)
    ensures r.Some? <==> j.JObject?
    ensures r.Some? ==> j == JObject(r.value)
  {
    if j.JObject? then Some(j.fields) else None
  }

  /** `json.stringValue`: the string itself, a number or boolean rendered as text,
      and the empty string for everything else. */
  function StringValue(j: Json): string {
    match j
    case JString(s) => s
    case JNumber(n) => IntToString(n)
    case JBool(b) => if b then "true" else "false"
    case _ => ""
  }

  predicate IsDigit(c: char) {
    '0' <= c <= '9'
  }

  function DigitChar(d: nat): (c: char)
    requires d < 10
    ensures IsDigit(c) && c as int - '0' as int == d
  {
    ('0' as int + d) as char
  }

  /** Decimal rendering of a natural number, most significant digit first, no leading zeros. */
  function NatToString(n: nat): (s: string)
    ensures |s| > 0
    ensures forall i :: 0 <= i < |s| ==> IsDigit(s[i])
    ensures |s| > 1 ==> s[0] != '0'
    decreases n
  {
    if n < 10 then [DigitChar(n)] else NatToString(n / 10) + [DigitChar(n % 10)]
  }

  /** Reads a string of decimal digits back as a number. */
  function ParseNat(s: string): nat
    requires forall i :: 0 <= i < |s| ==> IsDigit(s[i])
  {
    if s == [] then 0
    else
      var last := s[|s| - 1];
      assert IsDigit(last);
      ParseNat(s[..|s| - 1]) * 10 + (last as int - '0' as int)
  }

  lemma {:induction false} ParseNatToString(n: nat)
    ensures ParseNat(NatToString(n)) == n
    decreases n
  {
    var s := NatToString(n);
    if n >= 10 {
      ParseNatToString(n / 10);
      assert s[..|s| - 1] == NatToString(n / 10);
    }
  }

  /** Decimal rendering of an integer, with a leading '-' when negative. */
  function IntToString(n: int): (s: string)
    ensures |s| > 0 && (s[0] == '-' || IsDigit(s[0]))
  {
    if n < 0 then "-" + NatToString(-n) else NatToString(n)
  }

  /** A text that starts with neither a digit nor '-' and is not "true" or "false" is the
      `stringValue` of exactly one JSON value: the string itself. This is what
      makes the client's comparisons with "ok", "on", "off" and "blinking" a test
      for that very JSON string. */
  lemma StringValueIsText(j: Json, s: string)
    requires |s| > 0 && !IsDigit(s[0]) && s[0] != '-'
    requires s != "true" && s != "false"
    ensures StringValue(j) == s <==> j == JString(s)
  {
    if j.JNumber? {
      assert StringValue(j)[0] == '-' || IsDigit(StringValue(j)[0]);
    }
  }
}
