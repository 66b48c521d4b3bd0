/** The string operations the application relies on: ASCII lower-casing, substring search
    (`String.prototype.includes`), the part of an e-mail before its first '@'
    (`email.split('@')[0]`) and the decimal rendering of a timestamp (`Date.now().toString()`). */
module Text {

  /** Lower-cases one character; letters outside 'A'..'Z' are left alone. */
  function LowerChar(c: char): char
  {
    if 'A' <= c <= 'Z' then (c as int - 'A' as int + 'a' as int) as char else c
  }

  /** `toLowerCase`, restricted to ASCII letters. */
  function Lower(s: string): (r: string)
    ensures |r| == |s|
    ensures forall i :: 0 <= i < |s| && !('A' <= s[i] <= 'Z') ==> r[i] == s[i]
    ensures forall i :: 0 <= i < |s| && 'A' <= s[i] <= 'Z' ==> r[i] as int - 'a' as int == s[i] as int - 'A' as int
  {
    seq(|s|, i requires 0 <= i < |s| => LowerChar(s[i]))
  }

  /** `a` and `b` are the same character, or the same ASCII letter in the two cases. */
  predicate SameLetter(a: char, b: char)
  {
    || a == b
    || ('A' <= a <= 'Z' && b as int == a as int - 'A' as int + 'a' as int)
    || ('A' <= b <= 'Z' && a as int == b as int - 'A' as int + 'a' as int)
  }

  /** Strings equal up to ASCII case lower-case to the same string. */
  lemma SameLetterLower(s: string, t: string)
    requires |s| == |t|
    requires forall i :: 0 <= i < |s| ==> SameLetter(s[i], t[i])
    ensures Lower(s) == Lower(t)
  {
    forall i | 0 <= i < |s| ensures Lower(s)[i] == Lower(t)[i] {
      assert SameLetter(s[i], t[i]);
    }
  }

  /** A lower-cased string has no upper-case ASCII letter left, and lower-casing it again changes nothing. */
  lemma LowerIsLower(s: string)
    ensures forall i :: 0 <= i < |Lower(s)| ==> !('A' <= Lower(s)[i] <= 'Z')
    ensures Lower(Lower(s)) == Lower(s)
  {
  }

  /** `s.includes(t)`: `t` occurs in `s` at some position. */
  predicate Includes(s: string, t: string)
    ensures Includes(s, t) ==> |t| <= |s|
  {
    t <= s || (s != [] && Includes(s[1..], t))
  }

  /** `t` occurs in `s` starting at index `i`. */
  predicate OccursAt(s: string, t: string, i: nat)
  {
    i + |t| <= |s| && s[i..i + |t|] == t
  }

  /** A slice of the tail is the slice of the whole shifted by one. */
  lemma SliceOfTail(s: string, i: nat, j: nat)
    requires |s| > 0 && i <= j <= |s| - 1
    ensures s[1..][i..j] == s[i + 1..j + 1]
  {
    assert |s[1..][i..j]| == |s[i + 1..j + 1]|;
    forall k | 0 <= k < j - i ensures s[1..][i..j][k] == s[i + 1..j + 1][k] {
    }
  }

  /** Includes agrees with the positional definition of a substring, in both directions. */
  lemma {:induction false} IncludesAt(s: string, t: string)
    ensures Includes(s, t) <==> exists i: nat :: OccursAt(s, t, i)
  {
    if Includes(s, t) {
      if t <= s {
        assert OccursAt(s, t, 0);
      } else {
        IncludesAt(s[1..], t);
        var i: nat :| OccursAt(s[1..], t, i);
        SliceOfTail(s, i, i + |t|);
        assert OccursAt(s, t, i + 1);
      }
    }
    if exists i: nat :: OccursAt(s, t, i) {
      var i: nat :| OccursAt(s, t, i);
      if i == 0 {
        assert t <= s;
      } else {
        SliceOfTail(s, i - 1, i - 1 + |t|);
        assert OccursAt(s[1..], t, i - 1);
        IncludesAt(s[1..], t);
      }
    }
  }

  /** Every string includes the empty string, which is why an empty search term matches everything. */
  lemma IncludesEmpty(s: string)
    ensures Includes(s, "")
  {
  }

  /** `email.split('@')[0]`: the longest prefix of `email` without an '@'. */
  function LocalPart(email: string): (r: string)
    ensures r <= email
    ensures '@' !in r
    ensures |r| == |email| || email[|r|] == '@'
  {
    if email == [] || email[0] == '@' then ""
    else [email[0]] + LocalPart(email[1..])
  }

  predicate IsDigit(c: char)
  {
    '0' <= c <= '9'
  }

  function DigitValue(c: char): nat
    requires IsDigit(c)
  {
    c as int - '0' as int
  }

  function DigitChar(d: nat): char
    requires d < 10
  {
    ('0' as int + d) as char
  }

  /** `n.toString()` for a non-negative integer: its decimal digits, with no leading zero. */
  function DecimalString(n: nat): (r: string)
    ensures |r| >= 1
    ensures forall i :: 0 <= i < |r| ==> IsDigit(r[i])
    ensures |r| > 1 ==> r[0] != '0'
  {
    if n < 10 then [DigitChar(n)]
    else DecimalString(n / 10) + [DigitChar(n % 10)]
  }

  /** The value of a string of decimal digits. */
  function DecimalValue(s: string): nat
    requires forall i :: 0 <= i < |s| ==> IsDigit(s[i])
  {
    if s == [] then 0
    else DecimalValue(s[..|s| - 1]) * 10 + DigitValue(s[|s| - 1])
  }

  /** Reading back the decimal rendering of a number gives that number. */
  lemma {:induction false} DecimalRoundTrip(n: nat)
    ensures DecimalValue(DecimalString(n)) == n
  {
    if n >= 10 {
      var s := DecimalString(n);
      assert s[..|s| - 1] == DecimalString(n / 10);
      DecimalRoundTrip(n / 10);
    }
  }

  /** Two timestamps render to the same string only when they are equal. */
  lemma DecimalInjective(m: nat, n: nat)
    requires DecimalString(m) == DecimalString(n)
    ensures m == n
  {
    DecimalRoundTrip(m);
    DecimalRoundTrip(n);
  }

  /** A rendered number is never a word such as "admin". */
  lemma DecimalIsNotWord(n: nat, w: string)
    requires exists i :: 0 <= i < |w| && !IsDigit(w[i])
    ensures DecimalString(n) != w
  {
  }
}
