/** Listener ids. The library draws each listener's id from
    `UUID.randomUUID().toString()`; this model stands a counter in for the
    random source and renders the counter's value in decimal, so that
    distinct draws give distinct strings by construction rather than with
    high probability. */
module ListenerIds {

  predicate IsDigit(c: char) {
    '0' <= c <= '9'
  }

  function DigitChar(d: nat): (c: char)
    requires d < 10
    ensures IsDigit(c)
  {
    ('0' as int + d) as char
  }

  function DigitValue(c: char): (d: nat)
    requires IsDigit(c)
    ensures d < 10
  {
    c as int - '0' as int
  }

  /** The id issued for the `n`-th draw: `n` in decimal, without leading zeros. */
  function IdOf(n: nat): (s: string)
    ensures |s| >= 1
    ensures forall i :: 0 <= i < |s| ==> IsDigit(s[i])
    ensures |s| > 1 ==> s[0] != '0'
  {
    if n < 10 then [DigitChar(n)] else IdOf(n / 10) + [DigitChar(n % 10)]
  }

  /** Reads a string of decimal digits back as a number. */
  function Parse(s: string): nat
    requires forall i :: 0 <= i < |s| ==> IsDigit(s[i])
  {
    if s == [] then 0 else Parse(s[..|s| - 1]) * 10 + DigitValue(s[|s| - 1])
  }

  /** Reading an issued id gives back the draw it came from. */
  lemma {:induction false} ParseIdOf(n: nat)
    ensures Parse(IdOf(n)) == n
  {
    if n >= 10 {
      var s := IdOf(n);
      assert s[..|s| - 1] == IdOf(n / 10);
      ParseIdOf(n / 10);
    }
  }

  /** Distinct draws give distinct ids. */
  lemma IdOfInjective(a: nat, b: nat)
    requires a != b
    ensures IdOf(a) != IdOf(b)
  {
    ParseIdOf(a);
    ParseIdOf(b);
  }
}
