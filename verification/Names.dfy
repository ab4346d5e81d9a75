/** Decimal numbers and the evidence names `observation/N/channel`. */
module Names {
  import opened Records

  const DIGITS: string := "0123456789"

  predicate IsDigit(c: char) {
    '0' <= c <= '9'
  }

  function Digit(d: nat): (c: char)
    requires d < 10
    ensures IsDigit(c) && DigitValue(c) == d && (c == '0' <==> d == 0)
  {
    DIGITS[d]
  }

  function DigitValue(c: char): (d: nat)
    requires IsDigit(c)
    ensures d < 10
  {
    (c as int) - ('0' as int)
  }

  function Decimal(n: nat): (s: string)
    ensures s != "" && (forall c | c in s :: IsDigit(c))
    ensures n > 0 ==> s[0] != '0'
  {
    if n < 10 then [Digit(n)] else Decimal(n / 10) + [Digit(n % 10)]
  }

  function Value(s: string): nat
    requires forall c | c in s :: IsDigit(c)
  {
    if s == "" then 0 else 10 * Value(s[..|s| - 1]) + DigitValue(s[|s| - 1])
  }

  lemma {:induction false} ValueOfDecimal(n: nat)
    ensures Value(Decimal(n)) == n
  {
    if n < 10 {
      assert Decimal(n)[..0] == "";
    } else {
      ValueOfDecimal(n / 10);
      assert Decimal(n)[..|Decimal(n)| - 1] == Decimal(n / 10);
    }
  }

  lemma DecimalInjective(m: nat, n: nat)
    requires Decimal(m) == Decimal(n)
    ensures m == n
  {
    ValueOfDecimal(m);
    ValueOfDecimal(n);
  }

  /** Decimal strings without a leading zero are exactly the printed numbers. */
  lemma {:induction false} DecimalOfValue(s: string)
    requires s != "" && s[0] != '0' && forall c | c in s :: IsDigit(c)
    ensures Value(s) > 0 && Decimal(Value(s)) == s
  {
    var init, d := s[..|s| - 1], s[|s| - 1];
    assert s == init + [d];
    if init == "" {
      assert Value(s[..0]) == 0;
    } else {
      DecimalOfValue(init);
      assert Value(s) / 10 == Value(init) && Value(s) % 10 == DigitValue(d);
    }
  }

  /** How many digits a string starts with. */
  function DigitRun(s: string): (k: nat)
    ensures k <= |s| && (forall c | c in s[..k] :: IsDigit(c))
    ensures k < |s| ==> !IsDigit(s[k])
  {
    if s == "" || !IsDigit(s[0]) then 0
    else
      assert s[..1 + DigitRun(s[1..])] == [s[0]] + s[1..][..DigitRun(s[1..])];
      1 + DigitRun(s[1..])
  }

  lemma {:induction false} DigitRunOf(digits: string, rest: string)
    requires forall c | c in digits :: IsDigit(c)
    requires rest != "" ==> !IsDigit(rest[0])
    ensures DigitRun(digits + rest) == |digits|
  {
    if digits == "" {
      assert digits + rest == rest;
    } else {
      assert (digits + rest)[1..] == digits[1..] + rest;
      DigitRunOf(digits[1..], rest);
    }
  }

  const OBSERVATION: string := "observation/"

  /** The name an input of an operation gives to one channel of an observation. */
  function EvidenceName(sequence: nat, channel: string): string {
    OBSERVATION + Decimal(sequence) + "/" + channel
  }

  /** The sequence and channel a name cites, when it has the form
      `observation/([1-9][0-9]*)/(.+)`. */
  function ParseName(name: string): Option<(nat, string)> {
    if OBSERVATION <= name then
      var rest := name[|OBSERVATION|..];
      var k := DigitRun(rest);
      if 0 < k < |rest| - 1 && rest[0] != '0' && rest[k] == '/' then
        Some((Value(rest[..k]), rest[k + 1..]))
      else None
    else None
  }

  lemma ParsePrintedName(sequence: nat, channel: string)
    requires sequence > 0 && channel != ""
    ensures ParseName(EvidenceName(sequence, channel)) == Some((sequence, channel))
  {
    var name := EvidenceName(sequence, channel);
    var digits, tail := Decimal(sequence), "/" + channel;
    assert name == OBSERVATION + (digits + tail);
    assert name[|OBSERVATION|..] == digits + tail;
    DigitRunOf(digits, tail);
    assert (digits + tail)[..|digits|] == digits;
    assert (digits + tail)[|digits| + 1..] == channel;
    ValueOfDecimal(sequence);
  }

  lemma PrintParsedName(name: string)
    requires ParseName(name).Some?
    ensures var (sequence, channel) := ParseName(name).value;
      sequence > 0 && channel != "" && EvidenceName(sequence, channel) == name
  {
    var rest := name[|OBSERVATION|..];
    var k := DigitRun(rest);
    assert name == OBSERVATION + rest;
    assert rest == rest[..k] + "/" + rest[k + 1..];
    assert rest[..k][0] == rest[0];
    DecimalOfValue(rest[..k]);
  }

  /** Two evidence names are equal only for the same capture and channel. */
  lemma EvidenceNameInjective(m: nat, a: string, n: nat, b: string)
    requires m > 0 && n > 0 && a != "" && b != ""
    requires EvidenceName(m, a) == EvidenceName(n, b)
    ensures m == n && a == b
  {
    ParsePrintedName(m, a);
    ParsePrintedName(n, b);
  }

  lemma SameTail(prefix: string, a: string, b: string)
    requires prefix + a == prefix + b
    ensures a == b
  {
    assert (prefix + a)[|prefix|..] == a && (prefix + b)[|prefix|..] == b;
  }
}
