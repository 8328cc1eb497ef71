/**
 * The `java.lang.String` and `java.lang.Integer` operations the client's decision
 * logic relies on, written out so that their behaviour at the edges is explicit.
 */
module JavaStrings {
  import opened Wrappers

  /** `t` occurs in `s` starting at index `i`. */
  predicate OccursAt(s: string, t: string, i: nat) {
    i + |t| <= |s| && s[i..i + |t|] == t
  }

  /** `s.contains(t)`. */
  predicate Contains(s: string, t: string) {
    exists i: nat | i <= |s| :: OccursAt(s, t, i)
  }

  /** `s.endsWith(t)`. */
  predicate EndsWith(s: string, t: string) {
    |t| <= |s| && s[|s| - |t|..] == t
  }

  /** `s.indexOf(c)`, with `|s|` standing for "not found" (-1 in Java). */
  function IndexOf(s: string, c: char): (i: nat)
    ensures i <= |s|
    ensures i < |s| ==> s[i] == c
    ensures forall j :: 0 <= j < i ==> s[j] != c
  {
    if s == [] then 0
    else if s[0] == c then 0
    else 1 + IndexOf(s[1..], c)
  }

  /**
   * `s.replace(target, "")`: a single left-to-right scan that deletes each
   * occurrence of `target` it meets and resumes right after it.
   */
  function RemoveAll(s: string, target: string): (r: string)
    requires target != ""
    ensures |r| <= |s|
    decreases |s|
  {
    if |s| < |target| then s
    else if s[..|target|] == target then RemoveAll(s[|target|..], target)
    else [s[0]] + RemoveAll(s[1..], target)
  }

  /** An occurrence in the tail of `s` is an occurrence in `s`, one place later. */
  lemma OccursInTail(s: string, t: string, i: nat)
    requires |s| > 0 && OccursAt(s[1..], t, i)
    ensures OccursAt(s, t, i + 1)
  {
    assert s[1..][i..i + |t|] == s[i + 1..i + 1 + |t|];
  }

  /** Text that does not contain the target comes back from `replace` unchanged. */
  lemma {:induction false} RemoveAllAbsent(s: string, t: string)
    requires t != "" && !Contains(s, t)
    ensures RemoveAll(s, t) == s
    decreases |s|
  {
    if |s| >= |t| {
      assert !OccursAt(s, t, 0);
      assert s[..|t|] != t;
      if Contains(s[1..], t) {
        var i: nat :| i <= |s[1..]| && OccursAt(s[1..], t, i);
        OccursInTail(s, t, i);
        assert false;
      }
      RemoveAllAbsent(s[1..], t);
      assert s == [s[0]] + s[1..];
    }
  }

  /** Text that contains the target comes back strictly shorter. */
  lemma {:induction false} RemoveAllPresent(s: string, t: string)
    requires t != "" && Contains(s, t)
    ensures |RemoveAll(s, t)| < |s|
    decreases |s|
  {
    var i: nat :| i <= |s| && OccursAt(s, t, i);
    if s[..|t|] != t {
      assert i != 0;
      assert s[1..][i - 1..i - 1 + |t|] == s[i..i + |t|];
      assert OccursAt(s[1..], t, i - 1);
      RemoveAllPresent(s[1..], t);
    }
  }

  /** A character that starts no occurrence is kept, and the scan resumes right after it. */
  lemma RemoveAllKeepsHead(s: string, t: string)
    requires t != "" && |s| > 0 && !OccursAt(s, t, 0)
    ensures RemoveAll(s, t) == [s[0]] + RemoveAll(s[1..], t)
  {
  }

  /** An occurrence at the start is deleted, and the scan resumes right after it. */
  lemma RemoveAllDropsHead(s: string, t: string)
    requires t != "" && OccursAt(s, t, 0)
    ensures RemoveAll(s, t) == RemoveAll(s[|t|..], t)
  {
  }

  /**
   * Regrouping a concatenation, proved on its own so that the extensionality
   * argument it needs stays out of the context of RemoveAllKeepsPrefix.
   */
  lemma ConcatAssociates(a: string, b: string, c: string)
    ensures a + (b + c) == (a + b) + c
  {
  }

  /** Dropping the first character moves every occurrence one place to the left. */
  lemma OccurrencesShift(s: string, t: string, k: nat)
    requires 0 < k && OccursAt(s, t, k)
    requires forall j: nat :: j < k ==> !OccursAt(s, t, j)
    ensures OccursAt(s[1..], t, k - 1)
    ensures forall j: nat :: j < k - 1 ==> !OccursAt(s[1..], t, j)
    ensures s[1..][k - 1 + |t|..] == s[k + |t|..]
    ensures [s[0]] + s[1..][..k - 1] == s[..k]
  {
    assert s[1..][k - 1..k - 1 + |t|] == s[k..k + |t|];
    forall j: nat | j < k - 1 ensures !OccursAt(s[1..], t, j) {
      if OccursAt(s[1..], t, j) {
        OccursInTail(s, t, j);
      }
    }
  }

  /** The text before the first occurrence is kept as it is, and that occurrence is deleted. */
  lemma {:induction false} RemoveAllKeepsPrefix(s: string, t: string, k: nat)
    requires t != "" && OccursAt(s, t, k)
    requires forall j: nat :: j < k ==> !OccursAt(s, t, j)
    ensures RemoveAll(s, t) == s[..k] + RemoveAll(s[k + |t|..], t)
    decreases k
  {
    if k == 0 {
      RemoveAllDropsHead(s, t);
    } else {
      var u := s[1..];
      RemoveAllKeepsHead(s, t);
      OccurrencesShift(s, t, k);
      RemoveAllKeepsPrefix(u, t, k - 1);
      var whole, tail, rest := RemoveAll(s, t), RemoveAll(u, t), RemoveAll(s[k + |t|..], t);
      assert whole == [s[0]] + tail;
      assert tail == u[..k - 1] + rest;
      ConcatAssociates([s[0]], u[..k - 1], rest);
    }
  }

  /** `replace(target, "")` changes the text exactly when the text contains the target. */
  lemma RemoveAllChangesIff(s: string, t: string)
    requires t != ""
    ensures RemoveAll(s, t) == s <==> !Contains(s, t)
  {
    if Contains(s, t) {
      RemoveAllPresent(s, t);
    } else {
      RemoveAllAbsent(s, t);
    }
  }

  predicate IsDigit(c: char) {
    '0' <= c <= '9'
  }

  predicate AllDigits(s: string) {
    forall i :: 0 <= i < |s| ==> IsDigit(s[i])
  }

  function DigitChar(d: nat): (c: char)
    requires d < 10
    ensures IsDigit(c)
  {
    ('0' as int + d) as char
  }

  function DigitValue(c: char): (d: nat)
    requires IsDigit(c)
  {
    c as int - '0' as int
  }

  /** The decimal digits of `n`, most significant first, without leading zeros. */
  function NatToString(n: nat): (s: string)
    ensures |s| >= 1 && AllDigits(s)
    ensures |s| > 1 ==> s[0] != '0'
    decreases n
  {
    if n < 10 then [DigitChar(n)]
    else NatToString(n / 10) + [DigitChar(n % 10)]
  }

  /** `Integer.toString(n)`, which is also what `n + "..."` renders. */
  function IntToString(n: int): (s: string)
  {
    if n < 0 then "-" + NatToString(-n) else NatToString(n)
  }

  /** The value of a string of decimal digits. */
  function ParseNat(s: string): (n: nat)
    requires AllDigits(s)
    decreases |s|
  {
    if s == [] then 0
    else ParseNat(s[..|s| - 1]) * 10 + DigitValue(s[|s| - 1])
  }

  /** The inverse of `IntToString`: an optional minus sign, then decimal digits; None otherwise. */
  function ParseInt(s: string): (n: Option<int>)
  {
    if |s| > 1 && s[0] == '-' && AllDigits(s[1..]) then Some(0 - ParseNat(s[1..]) as int)
    else if |s| > 0 && AllDigits(s) then Some(ParseNat(s))
    else None
  }

  lemma {:induction false} NatToStringRoundTrip(n: nat)
    ensures ParseNat(NatToString(n)) == n
    decreases n
  {
    if n >= 10 {
      var s := NatToString(n);
      NatToStringRoundTrip(n / 10);
      assert s[..|s| - 1] == NatToString(n / 10);
    }
  }

  /** Parsing the rendered decimal of any integer gives the integer back. */
  lemma IntToStringRoundTrip(n: int)
    ensures ParseInt(IntToString(n)) == Some(n)
  {
    if n < 0 {
      NegativeRoundTrip(n);
    } else {
      NonNegativeRoundTrip(n);
    }
  }

  /** A minus sign followed by the digits of `-n` parses back to `n`. */
  lemma NegativeRoundTrip(n: int)
    requires n < 0
    ensures ParseInt(IntToString(n)) == Some(n)
  {
    var digits := NatToString(-n);
    assert IntToString(n) == "-" + digits;
    ParseNegative(digits);
    NatToStringRoundTrip(-n);
  }

  /** A minus sign followed by at least one digit parses as the negated digits. */
  lemma ParseNegative(digits: string)
    requires |digits| >= 1 && AllDigits(digits)
    ensures ParseInt("-" + digits) == Some(0 - ParseNat(digits))
  {
    var s := "-" + digits;
    assert s[1..] == digits;
  }

  /** The digits of a non-negative `n` parse back to `n`. */
  lemma NonNegativeRoundTrip(n: int)
    requires n >= 0
    ensures ParseInt(IntToString(n)) == Some(n)
  {
    var s := IntToString(n);
    assert s == NatToString(n) && s[0] != '-';
    NatToStringRoundTrip(n);
  }

  /** A rendered integer has no space in it: only digits and a leading minus sign. */
  lemma IntToStringHasNoSpace(n: int)
    ensures forall i :: 0 <= i < |IntToString(n)| ==> IntToString(n)[i] != ' '
  {
    if n < 0 {
      var d := NatToString(-n);
      forall i | 1 <= i < |IntToString(n)| ensures IntToString(n)[i] != ' ' {
        assert IntToString(n)[i] == d[i - 1];
      }
    }
  }
}
