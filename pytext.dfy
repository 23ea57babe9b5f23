/**
 * The string operations the Python services and the JavaScript pages rely on:
 * `str.strip()`, `str.lower()` / `String.prototype.toLowerCase()` and substring
 * search (`in` / `includes`). Whitespace and case are modelled for ASCII only.
 */
module PyText {

  /**
   * The ASCII characters `str.strip()` removes: space, tab, line feed,
   * carriage return, vertical tab, form feed and the four separators
   * U+001C to U+001F, which Python also counts as whitespace.
   */
  predicate IsSpace(c: char) {
    || c == ' ' || c == '\t' || c == '\n' || c == '\r' || c == '\U{000B}' || c == '\U{000C}'
    || c == '\U{001C}' || c == '\U{001D}' || c == '\U{001E}' || c == '\U{001F}'
  }

  predicate AllSpace(s: string) {
    forall i :: 0 <= i < |s| ==> IsSpace(s[i])
  }

  function StripLeft(s: string): string {
    if |s| > 0 && IsSpace(s[0]) then StripLeft(s[1..]) else s
  }

  function StripRight(s: string): string {
    if |s| > 0 && IsSpace(s[|s| - 1]) then StripRight(s[..|s| - 1]) else s
  }

  /** `lstrip` keeps a suffix of its input that does not start with whitespace. */
  lemma {:induction false} StripLeftShape(s: string)
    ensures |StripLeft(s)| <= |s| && StripLeft(s) == s[|s| - |StripLeft(s)|..]
    ensures StripLeft(s) == [] || !IsSpace(StripLeft(s)[0])
  {
    if |s| > 0 && IsSpace(s[0]) {
      StripLeftShape(s[1..]);
    }
  }

  /** `rstrip` keeps a prefix of its input that does not end with whitespace. */
  lemma {:induction false} StripRightShape(s: string)
    ensures |StripRight(s)| <= |s| && StripRight(s) == s[..|StripRight(s)|]
    ensures StripRight(s) == [] || !IsSpace(StripRight(s)[|StripRight(s)| - 1])
  {
    if |s| > 0 && IsSpace(s[|s| - 1]) {
      StripRightShape(s[..|s| - 1]);
    }
  }

  /** Python's `s.strip()`: drop leading and trailing whitespace. */
  function Strip(s: string): string {
    StripRight(StripLeft(s))
  }

  lemma {:induction false} StripLeftEmpty(s: string)
    ensures StripLeft(s) == [] <==> AllSpace(s)
  {
    if |s| > 0 && IsSpace(s[0]) {
      StripLeftEmpty(s[1..]);
      assert AllSpace(s) <==> AllSpace(s[1..]) by {
        if AllSpace(s[1..]) {
          forall i | 0 <= i < |s| ensures IsSpace(s[i]) {
            if i > 0 { assert s[i] == s[1..][i - 1]; }
          }
        }
      }
    }
  }

  lemma {:induction false} StripRightEmpty(s: string)
    ensures StripRight(s) == [] <==> AllSpace(s)
  {
    if |s| > 0 && IsSpace(s[|s| - 1]) {
      StripRightEmpty(s[..|s| - 1]);
      assert AllSpace(s) <==> AllSpace(s[..|s| - 1]) by {
        if AllSpace(s[..|s| - 1]) {
          forall i | 0 <= i < |s| ensures IsSpace(s[i]) {
            if i < |s| - 1 { assert s[i] == s[..|s| - 1][i]; }
          }
        }
      }
    }
  }

  /** `s.strip()` is empty exactly when `s` holds nothing but whitespace. */
  lemma StripEmptyIffAllSpace(s: string)
    ensures Strip(s) == [] <==> AllSpace(s)
  {
    StripLeftEmpty(s);
    StripLeftShape(s);
    StripRightEmpty(StripLeft(s));
  }

  /** The stripped string is a slice of the input that neither starts nor ends with whitespace. */
  lemma StripIsTrimmedSlice(s: string)
    ensures |Strip(s)| <= |s|
    ensures Occurs(Strip(s), s)
    ensures Strip(s) == [] || (!IsSpace(Strip(s)[0]) && !IsSpace(Strip(s)[|Strip(s)| - 1]))
  {
    var l := StripLeft(s);
    var t := Strip(s);
    StripLeftShape(s);
    StripRightShape(l);
    var i := |s| - |l|;
    assert t == l[..|t|];
    assert t == s[i..i + |t|];
    assert OccursAt(t, s, i);
    if t != [] {
      assert t[0] == l[0];
    }
  }

  lemma StripLeftIdle(s: string)
    requires s == [] || !IsSpace(s[0])
    ensures StripLeft(s) == s
  {
  }

  lemma StripRightIdle(s: string)
    requires s == [] || !IsSpace(s[|s| - 1])
    ensures StripRight(s) == s
  {
  }

  /** Stripping twice changes nothing more. */
  lemma StripIdempotent(s: string)
    ensures Strip(Strip(s)) == Strip(s)
  {
    var t := Strip(s);
    StripIsTrimmedSlice(s);
    StripLeftIdle(t);
    StripRightIdle(t);
  }

  /** ASCII lower-casing of one character. */
  function LowerChar(c: char): (r: char)
    ensures 'A' <= c <= 'Z' ==> 'a' <= r <= 'z'
    ensures !('A' <= c <= 'Z') ==> r == c
  {
    if 'A' <= c <= 'Z' then (c as int - 'A' as int + 'a' as int) as char else c
  }

  /** `s.lower()` / `s.toLowerCase()`, character by character. */
  function Lower(s: string): (r: string)
    ensures |r| == |s|
  {
    seq(|s|, i requires 0 <= i < |s| => LowerChar(s[i]))
  }

  /** `t in s` / `s.includes(t)`: some slice of `s` equals `t`. */
  ghost predicate Occurs(t: string, s: string) {
    exists i :: OccursAt(t, s, i)
  }

  predicate OccursAt(t: string, s: string, i: int) {
    0 <= i && i + |t| <= |s| && s[i..i + |t|] == t
  }

  /** A left-to-right search for `t` in `s`, as the library implementations do. */
  function Contains(s: string, t: string): bool {
    if t <= s then true
    else if s == [] then false
    else Contains(s[1..], t)
  }

  /** The search finds `t` exactly when `t` occurs somewhere in `s`. */
  lemma {:induction false} ContainsIffOccurs(s: string, t: string)
    ensures Contains(s, t) <==> Occurs(t, s)
  {
    if t <= s {
      assert s[0..|t|] == t;
      assert OccursAt(t, s, 0);
    } else if s != [] {
      ContainsIffOccurs(s[1..], t);
      if Contains(s[1..], t) {
        var i :| OccursAt(t, s[1..], i);
        assert s[i + 1..i + 1 + |t|] == t;
        assert OccursAt(t, s, i + 1);
      }
      if Occurs(t, s) {
        var i :| OccursAt(t, s, i);
        if i > 0 {
          assert s[1..][i - 1..i - 1 + |t|] == t;
          assert OccursAt(t, s[1..], i - 1);
        }
      }
    }
  }

  /** Every string contains the empty string. */
  lemma ContainsEmpty(s: string)
    ensures Contains(s, "")
  {
  }
}
