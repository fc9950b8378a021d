/**
 * Go strings and byte slices as the middleware handles them, with the two
 * library operations on them that it relies on: substring containment
 * (strings.Contains) and the decimal rendering of an int (fmt.Sprint).
 */
module ByteStrings {

  /** One element of a Go byte slice. */
  newtype byte = x: int | 0 <= x < 256

  /** A character that stands for one octet. */
  predicate IsOctet(c: char) {
    c as int < 256
  }

  /**
   * A Go string: a sequence of octets. Every element is one byte, so the
   * length of a ByteString is Go's len(s).
   */
  type ByteString = s: string | forall i | 0 <= i < |s| :: IsOctet(s[i])

  /** The conversion []byte(s). */
  function ToBytes(s: ByteString): seq<byte> {
    seq(|s|, i requires 0 <= i < |s| => s[i] as int as byte)
  }

  /** sub occurs in s starting at offset i. */
  predicate OccursAt(s: string, sub: string, i: int) {
    0 <= i && i + |sub| <= |s| && s[i..i + |sub|] == sub
  }

  /**
   * strings.Contains(s, sub): a raw substring test, not a token match. It
   * holds exactly when some slice of s is sub, so the empty string is in
   * every string and nothing longer than s is in s.
   */
  predicate Contains(s: string, sub: string)
    ensures Contains(s, sub) <==> exists i, j | 0 <= i <= j <= |s| :: s[i..j] == sub
    ensures Contains(s, sub) ==> |sub| <= |s|
    ensures sub == [] ==> Contains(s, sub)
  {
    OccurrenceIsSlice(s, sub);
    exists i | 0 <= i <= |s| - |sub| :: OccursAt(s, sub, i)
  }

  /** An occurrence at an offset is the same thing as a slice equal to sub. */
  lemma OccurrenceIsSlice(s: string, sub: string)
    ensures (exists i | 0 <= i <= |s| - |sub| :: OccursAt(s, sub, i)) <==>
      exists i, j | 0 <= i <= j <= |s| :: s[i..j] == sub
    ensures sub == [] ==> OccursAt(s, sub, 0)
  {
    if i :| 0 <= i <= |s| - |sub| && OccursAt(s, sub, i) {
      assert s[i..i + |sub|] == sub;
    }
    if i, j :| 0 <= i <= j <= |s| && s[i..j] == sub {
      assert OccursAt(s, sub, i);
    }
  }

  /** Every substring of a string is contained in any string around it. */
  lemma ContainsInContext(pre: string, s: string, post: string, sub: string)
    requires Contains(s, sub)
    ensures Contains(pre + s + post, sub)
  {
    var i :| 0 <= i <= |s| - |sub| && OccursAt(s, sub, i);
    var t := pre + s + post;
    assert t[|pre| + i..|pre| + i + |sub|] == s[i..i + |sub|];
    assert OccursAt(t, sub, |pre| + i);
  }

  predicate IsDigit(c: char) {
    '0' <= c <= '9'
  }

  predicate IsDigits(s: string) {
    forall i | 0 <= i < |s| :: IsDigit(s[i])
  }

  function DigitChar(d: nat): (c: char)
    requires d < 10
    ensures IsDigit(c) && c as int - '0' as int == d
  {
    ('0' as int + d) as char
  }

  /**
   * fmt.Sprint(n) for a non-negative int: its decimal digits, most
   * significant first, without leading zeros.
   */
  function Decimal(n: nat): (s: ByteString)
    ensures |s| >= 1 && IsDigits(s)
    ensures n > 0 ==> s[0] != '0'
    decreases n
  {
    if n < 10 then [DigitChar(n)] else Decimal(n / 10) + [DigitChar(n % 10)]
  }

  /** The value a client reads back from a string of decimal digits. */
  function ParseDecimal(s: string): nat
    requires IsDigits(s)
    decreases |s|
  {
    if s == [] then 0
    else ParseDecimal(s[..|s| - 1]) * 10 + (s[|s| - 1] as int - '0' as int)
  }

  /** Reading back the decimal rendering gives the number rendered. */
  lemma {:induction false} ParseDecimalOfDecimal(n: nat)
    ensures ParseDecimal(Decimal(n)) == n
    decreases n
  {
    if n >= 10 {
      var s := Decimal(n);
      assert s[..|s| - 1] == Decimal(n / 10);
      ParseDecimalOfDecimal(n / 10);
    }
  }

  /** Two numbers with the same decimal rendering are equal. */
  lemma DecimalInjective(a: nat, b: nat)
    requires Decimal(a) == Decimal(b)
    ensures a == b
  {
    ParseDecimalOfDecimal(a);
    ParseDecimalOfDecimal(b);
  }
}
