/** The PHP values that flow through the client and its models. */
module Values {
  import opened PhpArrays

  /**
   * A Carbon date-time normalised to UTC: whole seconds since the Unix epoch
   * and the microseconds within that second.
   */
  datatype Instant = Instant(seconds: int, micros: nat)

  datatype Value =
    | Null
    | Bool(b: bool)
    | Int(i: int)
    | Float(f: real)
    | Str(s: string)
    /** A decoded JSON array: a PHP list. */
    | List(items: seq<Value>)
    /** A decoded JSON object, or any array with string keys. */
    | Dict(entries: Pairs<Value>)
    /** A `Carbon\Carbon` object. */
    | Date(at: Instant)
    /** An object implementing `GuzzleHttp\Post\PostFileInterface`, with its content. */
    | Part(content: string)

  /**
   * PHP's `(boolean)` cast: every object is true, so are non-empty arrays and
   * strings other than "0".
   */
  function Truthy(v: Value): (r: bool)
    ensures !r <==> v in {Null, Bool(false), Int(0), Float(0.0), Str(""), Str("0"), List([]), Dict([])}
  {
    match v
    case Null => false
    case Bool(b) => b
    case Int(i) => i != 0
    case Float(f) => f != 0.0
    case Str(s) => s != "" && s != "0"
    case List(items) => |items| > 0
    case Dict(entries) => |entries| > 0
    case Date(_) => true
    case Part(_) => true
  }

  /** `$v->timestamp`: the epoch seconds of a date; reading it from anything else yields null. */
  function Timestamp(v: Value): (t: Value)
    ensures v.Date? ==> t == Int(v.at.seconds)
    ensures !v.Date? ==> t == Null
  {
    if v.Date? then Int(v.at.seconds) else Null
  }

  /** PHP's conversion of an integer to its decimal string, as done by `.`. */
  function IntToString(n: int): (s: string)
    ensures |s| > 0
    ensures s[0] == '-' <==> n < 0
  {
    if n < 0 then "-" + Digits(-n) else Digits(n)
  }

  /** The decimal digits of `n`, most significant first, without leading zeros. */
  function Digits(n: nat): (s: string)
    ensures |s| > 0 && forall i :: 0 <= i < |s| ==> '0' <= s[i] <= '9'
    ensures n > 0 ==> s[0] != '0'
    decreases n
  {
    if n < 10 then [DigitChar(n)] else Digits(n / 10) + [DigitChar(n % 10)]
  }

  function DigitChar(d: nat): (c: char)
    requires d < 10
    ensures '0' <= c <= '9' && c as int - '0' as int == d
  {
    ('0' as int + d) as char
  }

  /** Reading a string of decimal digits back, most significant first. */
  function DigitsValue(s: string): (n: int)
    decreases |s|
  {
    if s == [] then 0 else DigitsValue(s[..|s| - 1]) * 10 + (s[|s| - 1] as int - '0' as int)
  }

  /** Reading a decimal integer with an optional leading minus sign. */
  function ParseInt(s: string): (n: int) {
    if |s| > 0 && s[0] == '-' then -DigitsValue(s[1..]) else DigitsValue(s)
  }

  /** Reading back the decimal digits of `n` gives `n`. */
  lemma {:induction false} DigitsRoundTrip(n: nat)
    ensures DigitsValue(Digits(n)) == n
    decreases n
  {
    var s := Digits(n);
    if n < 10 {
      assert s[..|s| - 1] == [];
    } else {
      assert s[..|s| - 1] == Digits(n / 10);
      assert s[|s| - 1] == DigitChar(n % 10);
      DigitsRoundTrip(n / 10);
    }
  }

  /** The string built for an integer reads back as that integer. */
  lemma IntToStringRoundTrip(n: int)
    ensures ParseInt(IntToString(n)) == n
  {
    if n < 0 {
      DigitsRoundTrip(-n);
      assert IntToString(n)[1..] == Digits(-n);
    } else {
      DigitsRoundTrip(n);
    }
  }

  /** Distinct integers give distinct strings, so distinct ids name distinct resources. */
  lemma IntToStringInjective(a: int, b: int)
    ensures IntToString(a) == IntToString(b) ==> a == b
  {
    IntToStringRoundTrip(a);
    IntToStringRoundTrip(b);
  }
}
