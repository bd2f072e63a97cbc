/** The string operations the system uses: `toLowerCase` (restricted to
    ASCII letters), `includes`, and the decimal rendering of a number that
    template literals and `Number.prototype.toString` perform. */
module Text {

  predicate IsUpper(c: char)
  {
    'A' <= c <= 'Z'
  }

  predicate IsLower(c: char)
  {
    'a' <= c <= 'z'
  }

  function LowerChar(c: char): char
  {
    if IsUpper(c) then (c as int + 32) as char else c
  }

  function UpperChar(c: char): char
  {
    if IsLower(c) then (c as int - 32) as char else c
  }

  /** `s.toLowerCase()` on ASCII letters. */
  function ToLower(s: string): (r: string)
    ensures |r| == |s|
    ensures forall i :: 0 <= i < |s| ==> r[i] == LowerChar(s[i])
  {
    if s == [] then [] else [LowerChar(s[0])] + ToLower(s[1..])
  }

  /** No upper-case ASCII letter occurs in `s`. */
  predicate NoUpper(s: string)
  {
    forall i :: 0 <= i < |s| ==> !IsUpper(s[i])
  }

  /** Lower-casing twice is lower-casing once. */
  lemma ToLowerIdempotent(s: string)
    ensures ToLower(ToLower(s)) == ToLower(s)
  {
  }

  /** `ToLower(s) == t`, for an all-lower-case `t`, holds exactly when `s` spells
      `t` with any of its letters written in upper case. */
  lemma ToLowerMatches(s: string, t: string)
    requires NoUpper(t)
    ensures ToLower(s) == t <==>
      |s| == |t| && forall i :: 0 <= i < |s| ==> s[i] == t[i] || s[i] == UpperChar(t[i])
  {
    if |s| == |t| && forall i :: 0 <= i < |s| ==> s[i] == t[i] || s[i] == UpperChar(t[i]) {
      forall i | 0 <= i < |s| ensures ToLower(s)[i] == t[i] {
      }
    }
  }

  /** `s` begins with `t`. */
  predicate StartsWith(s: string, t: string)
  {
    |t| <= |s| && s[..|t|] == t
  }

  /** `s.includes(t)`: `t` occurs in `s` starting at some position. */
  predicate Includes(s: string, t: string)
    ensures Includes(s, t) ==> |t| <= |s|
    decreases |s|
  {
    StartsWith(s, t) || (s != [] && Includes(s[1..], t))
  }

  /** `t` occurs in `s` at offset `i`. */
  predicate OccursAt(s: string, t: string, i: int)
  {
    0 <= i <= |s| - |t| && s[i..i + |t|] == t
  }

  /** `Includes` finds exactly the occurrences at some offset. */
  lemma {:induction false} IncludesAt(s: string, t: string)
    ensures Includes(s, t) <==> exists i :: OccursAt(s, t, i)
  {
    if StartsWith(s, t) {
      assert OccursAt(s, t, 0);
    } else if s != [] {
      IncludesAt(s[1..], t);
      if Includes(s[1..], t) {
        var i :| OccursAt(s[1..], t, i);
        assert OccursAt(s, t, i + 1) by {
          assert s[i + 1..i + 1 + |t|] == s[1..][i..i + |t|];
        }
      }
      if i :| OccursAt(s, t, i) {
        assert i != 0;
        assert OccursAt(s[1..], t, i - 1) by {
          assert s[1..][i - 1..i - 1 + |t|] == s[i..i + |t|];
        }
      }
    }
  }

  predicate IsDigit(c: char)
  {
    '0' <= c <= '9'
  }

  function DigitChar(d: nat): (c: char)
    requires d < 10
    ensures IsDigit(c)
  {
    ('0' as int + d) as char
  }

  function DigitValue(c: char): nat
    requires IsDigit(c)
  {
    c as int - '0' as int
  }

  predicate AllDigits(s: string)
  {
    forall i :: 0 <= i < |s| ==> IsDigit(s[i])
  }

  /** The decimal rendering of `n`, without leading zeros, as `String(n)` gives it. */
  function NatToString(n: nat): (r: string)
    ensures r != [] && AllDigits(r)
    ensures |r| > 1 ==> r[0] != '0'
    decreases n
  {
    if n < 10 then [DigitChar(n)] else NatToString(n / 10) + [DigitChar(n % 10)]
  }

  /** The number a string of decimal digits denotes. */
  function ParseNat(s: string): nat
    requires AllDigits(s)
  {
    if s == [] then 0 else 10 * ParseNat(s[..|s| - 1]) + DigitValue(s[|s| - 1])
  }

  /** Reading back a rendered number gives the number. */
  lemma {:induction false} ParseNatToString(n: nat)
    ensures ParseNat(NatToString(n)) == n
    decreases n
  {
    if n >= 10 {
      var s := NatToString(n);
      ParseNatToString(n / 10);
      assert s[..|s| - 1] == NatToString(n / 10);
    }
  }

  /** Distinct numbers render as distinct strings. */
  lemma NatToStringInjective(m: nat, n: nat)
    requires m != n
    ensures NatToString(m) != NatToString(n)
  {
    ParseNatToString(m);
    ParseNatToString(n);
  }
}
