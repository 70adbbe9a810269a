/** The key a completion is sent under: the job id, a colon, and the attempt in decimal. */
module IdempotencyKey {
  import opened Protocol

  const DIGITS := "0123456789"

  function Decimal(n: nat): string {
    if n < 10 then [DIGITS[n]] else Decimal(n / 10) + [DIGITS[n % 10]]
  }

  function KeyOf(key: JobKey): string {
    key.id + ":" + Decimal(key.attempt)
  }

  /** Reads a decimal numeral; characters that are not digits count as 0. */
  function Numeral(s: string): nat {
    if s == [] then 0
    else
      var c := s[|s| - 1];
      10 * Numeral(s[..|s| - 1]) + if '0' <= c <= '9' then c as int - '0' as int else 0
  }

  lemma {:induction false} DecimalReadsBack(n: nat)
    ensures Numeral(Decimal(n)) == n
    ensures ':' !in Decimal(n)
  {
    if n >= 10 {
      DecimalReadsBack(n / 10);
      assert Decimal(n)[..|Decimal(n)| - 1] == Decimal(n / 10);
    } else {
      assert Decimal(n)[..0] == [];
    }
  }

  predicate AllDigits(s: string) {
    forall c | c in s :: '0' <= c <= '9'
  }

  lemma {:induction false} DecimalIsPlain(n: nat)
    ensures |Decimal(n)| > 0 && (n > 0 ==> Decimal(n)[0] != '0')
    ensures AllDigits(Decimal(n))
  {
    if n < 10 {
    } else {
      DecimalIsPlain(n / 10);
    }
  }

  /** A key is the job id, a colon, and the attempt as a plain decimal numeral. */
  lemma KeyReads(key: JobKey)
    ensures var k, n := KeyOf(key), |key.id|;
      && n + 1 < |k| && k[..n] == key.id && k[n] == ':'
      && Numeral(k[n + 1..]) == key.attempt
      && AllDigits(k[n + 1..])
      && (key.attempt > 0 ==> k[n + 1] != '0')
  {
    DecimalReadsBack(key.attempt);
    DecimalIsPlain(key.attempt);
    assert KeyOf(key)[|key.id| + 1..] == Decimal(key.attempt);
    hide Decimal, Numeral;
  }

  /** Two attempts share a key only if they are the same attempt, whatever characters the ids contain. */
  lemma KeysAreDistinct(a: JobKey, b: JobKey)
    requires KeyOf(a) == KeyOf(b)
    ensures a == b
  {
    var s, x, y := KeyOf(a), Decimal(a.attempt), Decimal(b.attempt);
    DecimalReadsBack(a.attempt);
    DecimalReadsBack(b.attempt);
    assert s[|s| - |x| - 1] == ':' && s[|s| - |y| - 1] == ':';
    assert |x| == |y|;
    assert x == s[|s| - |x|..] && y == s[|s| - |y|..];
    assert a.id == s[..|s| - |x| - 1] && b.id == s[..|s| - |y| - 1];
  }
}
