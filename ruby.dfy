/** The pieces of the Ruby runtime the client relies on: the exceptions it can
    raise, dynamic configuration values and their truthiness, Integer#to_s,
    string interpolation, String#rstrip and Array#join. */
module Ruby {

  datatype Option<+T> = None | Some(value: T)

  /** The exceptions raised along the modelled paths. A raise aborts the whole
      call that is in progress; nothing is returned. */
  datatype Error =
    | ArgumentError(message: string)
    | ZeroDivisionError
    | UnboundVariable(name: string)
    | NoMethodError(message: string)
    | TypeError(message: string)
    | KeyError(key: string)
    | IOError(message: string)
    | TransportError

  /** The outcome of a Ruby call: its value, or the exception it raised. */
  datatype Try<+T> = Ok(value: T) | Raised(error: Error)

  /** A value a caller may put into a configuration hash. */
  datatype Value = Nil | Bool(b: bool) | Int(i: int) | Str(s: string)

  /** Ruby truthiness: only nil and false are falsy. */
  predicate Truthy(v: Value) {
    !(v.Nil? || v == Bool(false))
  }

  function DigitChar(d: int): char
    requires 0 <= d < 10
  {
    "0123456789"[d]
  }

  /** Integer#to_s for a non-negative integer. */
  function NatText(n: nat): (t: string)
    ensures |t| > 0
    ensures forall i :: 0 <= i < |t| ==> '0' <= t[i] <= '9'
    decreases n
  {
    if n < 10 then [DigitChar(n)] else NatText(n / 10) + [DigitChar(n % 10)]
  }

  /** Integer#to_s: the decimal text of n, with a leading '-' when negative. */
  function DecimalText(n: int): string {
    if n < 0 then "-" + NatText(-n) else NatText(n)
  }

  /** The leading character of a three-digit number's text is its hundreds digit. */
  lemma LeadingDigit(n: int)
    requires 100 <= n <= 999
    ensures DecimalText(n)[0] == DigitChar(n / 100)
  {
    assert NatText(n) == NatText(n / 10) + [DigitChar(n % 10)];
    assert NatText(n / 10) == NatText(n / 10 / 10) + [DigitChar(n / 10 % 10)];
    assert n / 10 / 10 == n / 100;
  }

  /** "#{v}": string interpolation of a value (nil interpolates as ""). */
  function Text(v: Value): string {
    match v
    case Nil => ""
    case Bool(b) => if b then "true" else "false"
    case Int(i) => DecimalText(i)
    case Str(s) => s
  }

  /** The characters String#rstrip removes. */
  predicate IsSpace(c: char) {
    c == ' ' || c == '\t' || c == '\n' || c == '\U{B}' || c == '\U{C}' || c == '\r' || c == '\0'
  }

  /** String#rstrip: the longest prefix of s that does not end in whitespace,
      everything after it being whitespace. */
  function RStrip(s: string): (r: string)
    ensures r <= s
    ensures r == [] || !IsSpace(r[|r| - 1])
    ensures forall i :: |r| <= i < |s| ==> IsSpace(s[i])
  {
    if s != [] && IsSpace(s[|s| - 1]) then RStrip(s[..|s| - 1]) else s
  }

  /** Array#join(sep) over strings. */
  function Join(parts: seq<string>, sep: string): string {
    if parts == [] then ""
    else if |parts| == 1 then parts[0]
    else parts[0] + sep + Join(parts[1..], sep)
  }

  /** Joining one more part appends the separator and the part. */
  lemma {:induction false} JoinSnoc(parts: seq<string>, last: string, sep: string)
    requires parts != []
    ensures Join(parts + [last], sep) == Join(parts, sep) + sep + last
    decreases |parts|
  {
    if |parts| == 1 {
      assert parts + [last] == [parts[0], last];
      assert [parts[0], last][1..] == [last];
    } else {
      assert (parts + [last])[1..] == parts[1..] + [last];
      JoinSnoc(parts[1..], last, sep);
    }
  }

  /** Joining four parts puts exactly one separator between neighbours. */
  lemma JoinFour(a: string, b: string, c: string, d: string, sep: string)
    ensures Join([a, b, c, d], sep) == a + sep + b + sep + c + sep + d
  {
    assert [a, b, c, d][1..] == [b, c, d];
    assert [b, c, d][1..] == [c, d];
    assert [c, d][1..] == [d];
    assert Join([c, d], sep) == c + sep + d;
    assert Join([b, c, d], sep) == b + sep + (c + sep + d);
  }
}
