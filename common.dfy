/** Small shared vocabulary: optional values, JavaScript numbers as far as the
    onboarding screens need them, and JavaScript string length. */
module Common {

  datatype Option<+T> = None | Some(value: T)

  /** A JavaScript number restricted to what the progress computation can
      produce: a finite value (taken as an exact real) or NaN, which is what
      `0 / 0` yields. */
  datatype Number = NaN | Finite(value: real)

  /** `s.length` in JavaScript: the number of UTF-16 code units, so a
      character outside the Basic Multilingual Plane counts twice. */
  function Utf16Length(s: string): (n: nat)
  {
    if s == [] then 0
    else (if s[0] as int >= 0x1_0000 then 2 else 1) + Utf16Length(s[1..])
  }

  /** Every character is at least one code unit, at most two. */
  lemma {:induction false} Utf16LengthBounds(s: string)
    ensures |s| <= Utf16Length(s) <= 2 * |s|
  {
    if s != [] {
      Utf16LengthBounds(s[1..]);
    }
  }

  /** Text made only of Basic Multilingual Plane characters has one code
      unit per character. */
  lemma {:induction false} Utf16LengthBmp(s: string)
    requires forall i :: 0 <= i < |s| ==> s[i] as int < 0x1_0000
    ensures Utf16Length(s) == |s|
  {
    if s != [] {
      Utf16LengthBmp(s[1..]);
    }
  }

  /** `z.string().min(n)`: at least `n` UTF-16 code units. */
  predicate MinLength(s: string, n: nat)
  {
    Utf16Length(s) >= n
  }

  /** A string of at least `n` characters always meets `min(n)`; the empty
      string meets it only when `n` is zero; and for text without characters
      beyond the Basic Multilingual Plane, `min(n)` is exactly "at least `n`
      characters". */
  lemma MinLengthOfLength(s: string, n: nat)
    ensures |s| >= n ==> MinLength(s, n)
    ensures s == [] ==> (MinLength(s, n) <==> n == 0)
    ensures (forall i :: 0 <= i < |s| ==> s[i] as int < 0x1_0000) ==> (MinLength(s, n) <==> |s| >= n)
  {
    Utf16LengthBounds(s);
    if forall i :: 0 <= i < |s| ==> s[i] as int < 0x1_0000 {
      Utf16LengthBmp(s);
    }
  }
}
