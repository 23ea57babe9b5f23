/**
 * The registration email check of backend/app/auth/services.py:
 * `re.compile(r'^[a-zA-Z0-9._%+-]+@[a-zA-Z0-9.-]+\.[a-zA-Z]{2,}$').match(email)`.
 * `Pattern` states what the regular expression accepts; `EmailMatches` is a
 * direct scan, proved to accept the same strings.
 */
module EmailRegex {
  import PyText

  predicate IsAlpha(c: char) {
    'a' <= c <= 'z' || 'A' <= c <= 'Z'
  }

  predicate IsAlnum(c: char) {
    IsAlpha(c) || '0' <= c <= '9'
  }

  /** `[a-zA-Z0-9._%+-]` */
  predicate LocalChar(c: char) {
    IsAlnum(c) || c == '.' || c == '_' || c == '%' || c == '+' || c == '-'
  }

  /** `[a-zA-Z0-9.-]` */
  predicate DomainChar(c: char) {
    IsAlnum(c) || c == '.' || c == '-'
  }

  /**
   * `s` splits as L "@" D "." T with L a non-empty run of local characters,
   * D a non-empty run of domain characters and T at least two letters.
   */
  predicate SplitsAt(s: string, at: int, dot: int) {
    && 0 < at && at + 1 < dot && dot + 3 <= |s|
    && s[at] == '@' && s[dot] == '.'
    && (forall i :: 0 <= i < at ==> LocalChar(s[i]))
    && (forall i :: at < i < dot ==> DomainChar(s[i]))
    && (forall i :: dot < i < |s| ==> IsAlpha(s[i]))
  }

  /** The language of the pattern between `^` and `$`. */
  ghost predicate Pattern(s: string) {
    exists at, dot :: SplitsAt(s, at, dot)
  }

  /**
   * What `match` accepts: Python's `$` also matches just before a final
   * newline, so the pattern may be followed by one "\n".
   */
  ghost predicate RegexMatch(s: string) {
    Pattern(s) || (|s| > 0 && s[|s| - 1] == '\n' && Pattern(s[..|s| - 1]))
  }

  /** The index of the first `c` in `s`, or `|s|` when there is none. */
  function FirstIndex(s: string, c: char): (r: nat)
    ensures r <= |s|
    ensures r < |s| ==> s[r] == c
    ensures forall i :: 0 <= i < r ==> s[i] != c
  {
    if s == [] then 0
    else if s[0] == c then 0
    else 1 + FirstIndex(s[1..], c)
  }

  /** The index of the last `c` in `s`, or -1 when there is none. */
  function LastIndex(s: string, c: char): (r: int)
    ensures -1 <= r < |s|
    ensures r >= 0 ==> s[r] == c
    ensures forall i :: r < i < |s| ==> s[i] != c
  {
    if s == [] then -1
    else if s[|s| - 1] == c then |s| - 1
    else LastIndex(s[..|s| - 1], c)
  }

  predicate AllLocal(s: string) {
    forall i :: 0 <= i < |s| ==> LocalChar(s[i])
  }

  predicate AllDomain(s: string) {
    forall i :: 0 <= i < |s| ==> DomainChar(s[i])
  }

  predicate AllAlpha(s: string) {
    forall i :: 0 <= i < |s| ==> IsAlpha(s[i])
  }

  /** The scan: the only '@', the last '.', and the three runs around them. */
  predicate EmailMatches(s: string) {
    var at := FirstIndex(s, '@');
    var dot := LastIndex(s, '.');
    && 0 < at && at + 1 < dot && dot + 3 <= |s|
    && AllLocal(s[..at]) && AllDomain(s[at + 1..dot]) && AllAlpha(s[dot + 1..])
  }

  /** The scan accepts exactly the strings the pattern describes. */
  lemma EmailMatchesIffPattern(s: string)
    ensures EmailMatches(s) <==> Pattern(s)
  {
    var at := FirstIndex(s, '@');
    var dot := LastIndex(s, '.');
    if EmailMatches(s) {
      forall i | 0 <= i < at ensures LocalChar(s[i]) {
        assert s[..at][i] == s[i];
      }
      forall i | at < i < dot ensures DomainChar(s[i]) {
        assert s[at + 1..dot][i - at - 1] == s[i];
      }
      forall i | dot < i < |s| ensures IsAlpha(s[i]) {
        assert s[dot + 1..][i - dot - 1] == s[i];
      }
      assert SplitsAt(s, at, dot);
    }
    if Pattern(s) {
      var a, d :| SplitsAt(s, a, d);
      assert !LocalChar('@') && !IsAlpha('.');
      assert at == a;
      assert dot == d;
    }
  }

  /** A stripped string cannot end in a newline, so for it `match` is the bare pattern. */
  lemma StrippedMatch(raw: string)
    ensures RegexMatch(PyText.Strip(raw)) <==> Pattern(PyText.Strip(raw))
  {
    PyText.StripIsTrimmedSlice(raw);
  }

  /** A minimal address is accepted. */
  lemma SampleAccepted()
    ensures EmailMatches("a@b.co")
  {
    assert FirstIndex("a@b.co", '@') == 1;
    assert LastIndex("a@b.co", '.') == 3;
    assert "a@b.co"[..1] == "a" && "a@b.co"[2..3] == "b" && "a@b.co"[4..] == "co";
  }

  /** A one-letter top-level domain and an empty local part are refused. */
  lemma SamplesShortParts()
    ensures !EmailMatches("a@b.c")
    ensures !EmailMatches("@b.co")
  {
  }

  /** An empty domain label and a second `@` are refused. */
  lemma SamplesBadDomain()
    ensures !EmailMatches("a@.co")
    ensures !EmailMatches("a@b@c.co")
  {
    assert FirstIndex("a@.co", '@') == 1;
    assert LastIndex("a@.co", '.') == 2;
    assert FirstIndex("a@b@c.co", '@') == 1;
    assert LastIndex("a@b@c.co", '.') == 5;
    assert "a@b@c.co"[2..5][1] == '@';
  }
}
