/**
 * The slice of org.json and java.lang the remapper's persistence uses: JSON
 * values as stored in the shared preferences, `String.valueOf(int)` and
 * `Integer.valueOf(String)`.
 */
module JsonStore {
  import opened AndroidInput
  import opened Wrappers

  /**
   * A JSON value as org.json sees it. An object's members are kept in their
   * insertion order (org.json keeps them in a LinkedHashMap), which is the
   * order `keys()` iterates in. A JSONObject holds one value per name, so
   * the records that matter satisfy UniqueNames; `Lookup` takes the first
   * member with a name, which for such records is the only one. JOther is
   * every other value: strings, booleans, null, arrays, and numbers that are
   * not 32-bit integers.
   */
  datatype Json = JInt(n: int32) | JObject(members: seq<Member>) | JOther
  datatype Member = Member(name: string, value: Json)

  /** No two members share a name, as in any object org.json builds. */
  predicate UniqueNames(members: seq<Member>)
  {
    forall i, j :: 0 <= i < j < |members| ==> members[i].name != members[j].name
  }

  /** The two exceptions loading can raise. */
  datatype LoadError = JSONException | NumberFormatException

  /** `JSONObject.opt(name)`: the value stored under `name`, if any. */
  function Lookup(members: seq<Member>, name: string): (v: Option<Json>)
    ensures v.Some? <==> exists i :: 0 <= i < |members| && members[i].name == name
    ensures v.Some? ==> exists i :: 0 <= i < |members| && members[i] == Member(name, v.value)
  {
    if members == [] then None
    else if members[0].name == name then Some(members[0].value)
    else
      var v := Lookup(members[1..], name);
      assert forall i :: 0 < i < |members| ==> members[i] == members[1..][i - 1];
      v
  }

  /** `JSONObject.getJSONObject(name)`: fails unless an object is stored under `name`. */
  function GetObject(members: seq<Member>, name: string): (r: Result<seq<Member>, LoadError>)
    ensures r.Ok? ==> exists i :: 0 <= i < |members| && members[i] == Member(name, JObject(r.value))
    ensures (forall i :: 0 <= i < |members| ==> members[i].name != name) ==> r == Err(JSONException)
  {
    match Lookup(members, name)
    case Some(JObject(inner)) => Ok(inner)
    case _ => Err(JSONException)
  }

  function DigitChar(d: nat): char
    requires d < 10
  {
    (48 + d) as char
  }

  predicate IsDigit(c: char)
  {
    '0' <= c <= '9'
  }

  predicate AllDigits(s: string)
  {
    forall i :: 0 <= i < |s| ==> IsDigit(s[i])
  }

  /** Decimal digits of a natural number, most significant first, no leading zeros. */
  function NatToString(n: nat): string
    decreases n
  {
    if n < 10 then [DigitChar(n)] else NatToString(n / 10) + [DigitChar(n % 10)]
  }

  /** `String.valueOf(int)` */
  function IntToString(i: int): (s: string)
    ensures |s| > 0 && (s[0] == '-' <==> i < 0)
    ensures i >= 0 ==> AllDigits(s) && DigitsValue(s) == i
    ensures i < 0 ==> AllDigits(s[1..]) && DigitsValue(s[1..]) == -i
  {
    NatToStringDigits(if i < 0 then -i else i);
    if i < 0 then "-" + NatToString(-i) else NatToString(i)
  }

  /** The number a string of decimal digits denotes. */
  function DigitsValue(s: string): nat
    requires AllDigits(s)
    decreases |s|
  {
    if s == [] then 0
    else DigitsValue(s[..|s| - 1]) * 10 + (s[|s| - 1] as int - 48)
  }

  /**
   * `Integer.valueOf(String)`, that is `Integer.parseInt(s, 10)`: an optional
   * sign followed by at least one decimal digit, denoting a value in the
   * range of `int`; anything else raises NumberFormatException (None).
   */
  function ParseInt(s: string): (r: Option<int32>)
    ensures |s| == 0 ==> r.None?
    ensures r.Some? ==> (r.value < 0 ==> s[0] == '-')
    ensures |s| > 0 && AllDigits(s) && DigitsValue(s) < 0x8000_0000 ==> r == Some(DigitsValue(s) as int32)
  {
    if |s| == 0 then None
    else
      var digits := if s[0] == '-' || s[0] == '+' then s[1..] else s;
      if |digits| == 0 || !AllDigits(digits) then None
      else
        var v: int := if s[0] == '-' then -(DigitsValue(digits) as int) else DigitsValue(digits);
        if -0x8000_0000 <= v < 0x8000_0000 then Some(v as int32) else None
  }

  lemma {:induction false} NatToStringDigits(n: nat)
    ensures |NatToString(n)| > 0 && AllDigits(NatToString(n))
    ensures DigitsValue(NatToString(n)) == n
    decreases n
  {
    if n >= 10 {
      NatToStringDigits(n / 10);
      var prefix := NatToString(n / 10);
      var s := prefix + [DigitChar(n % 10)];
      assert s[..|s| - 1] == prefix;
      assert DigitsValue(s) == DigitsValue(prefix) * 10 + n % 10;
    }
  }

  /** `Integer.valueOf(String.valueOf(i)) == i` for every `int` i. */
  lemma ParseIntToString(i: int32)
    ensures ParseInt(IntToString(i as int)) == Some(i)
  {
    var s := IntToString(i as int);
    if i < 0 {
      var n: nat := -(i as int);
      NatToStringDigits(n);
      assert s == "-" + NatToString(n);
      assert s[0] == '-' && s[1..] == NatToString(n);
      var v: int := -(DigitsValue(s[1..]) as int);
      assert v == i as int;
      assert ParseInt(s) == Some(v as int32);
    } else {
      var n: nat := i as int;
      NatToStringDigits(n);
      assert s == NatToString(n);
      assert IsDigit(s[0]);
      assert s[0] != '-' && s[0] != '+';
      assert ParseInt(s) == Some(DigitsValue(s) as int32);
    }
  }

  /** String.valueOf is injective on `int`, so encoded keys never collide. */
  lemma IntToStringInjective(i: int32, j: int32)
    requires IntToString(i as int) == IntToString(j as int)
    ensures i == j
  {
    ParseIntToString(i);
    ParseIntToString(j);
  }
}
