/**
 * frontend/src/pages/JournalEntries.jsx: the timeline's emotion filter and
 * text search, two chained `Array.prototype.filter` calls.
 */
module JournalEntriesPage {
  import opened PyText

  /** One card of the timeline list. */
  datatype Card = Card(id: int, title: string, date: string, preview: string, emotion: string, score: int)

  /** The filter value that turns emotion filtering off. */
  const All := "All"

  /** `filter === 'All' || entry.emotion === filter` (line 22): exact, case-sensitive. */
  predicate EmotionPasses(filter: string, c: Card) {
    filter == All || c.emotion == filter
  }

  /** The search of line 23: the lower-cased title or preview contains the lower-cased term. */
  predicate SearchPasses(term: string, c: Card) {
    Contains(Lower(c.title), Lower(term)) || Contains(Lower(c.preview), Lower(term))
  }

  /** `s.filter(p)`: the items satisfying `p`, in their order. */
  function Keep<T>(s: seq<T>, p: T -> bool): seq<T> {
    if s == [] then []
    else if p(s[0]) then [s[0]] + Keep(s[1..], p)
    else Keep(s[1..], p)
  }

  /** `r` is `s` with some items removed and the rest in their order. */
  ghost predicate SubsequenceOf<T>(r: seq<T>, s: seq<T>)
    decreases |s|
  {
    r == [] || (s != [] && ((r[0] == s[0] && SubsequenceOf(r[1..], s[1..])) || SubsequenceOf(r, s[1..])))
  }

  /** The two callbacks given to `filter`. */
  function ByEmotion(filter: string): Card -> bool {
    c => EmotionPasses(filter, c)
  }

  function BySearch(term: string): Card -> bool {
    c => SearchPasses(term, c)
  }

  /** The conjunction of two predicates. */
  function Both<T>(p: T -> bool, q: T -> bool): T -> bool {
    x => p(x) && q(x)
  }

  /** `filteredEntries` (lines 21-23). */
  function Filtered(entries: seq<Card>, filter: string, term: string): seq<Card> {
    Keep(Keep(entries, ByEmotion(filter)), BySearch(term))
  }

  /** A filter keeps an item exactly when it is in the list and satisfies the predicate, and keeps the order. */
  lemma {:induction false} KeepSpec<T>(s: seq<T>, p: T -> bool)
    ensures forall x :: x in Keep(s, p) <==> x in s && p(x)
    ensures SubsequenceOf(Keep(s, p), s)
    ensures |Keep(s, p)| <= |s|
  {
    if s != [] {
      KeepSpec(s[1..], p);
      var r := Keep(s, p);
      if p(s[0]) {
        assert r[0] == s[0] && r[1..] == Keep(s[1..], p);
      }
      forall x ensures x in s <==> x == s[0] || x in s[1..] {
        if x in s {
          var i :| 0 <= i < |s| && s[i] == x;
          if i > 0 { assert s[1..][i - 1] == x; }
        }
      }
    }
  }

  /** Two chained filters keep exactly the items satisfying both predicates. */
  lemma {:induction false} KeepBoth<T>(s: seq<T>, p: T -> bool, q: T -> bool)
    ensures Keep(Keep(s, p), q) == Keep(s, Both(p, q))
  {
    if s != [] {
      KeepBoth(s[1..], p, q);
      if p(s[0]) {
        assert Keep(s, p) == [s[0]] + Keep(s[1..], p);
        assert ([s[0]] + Keep(s[1..], p))[1..] == Keep(s[1..], p);
      }
    }
  }

  /**
   * The list is an order-preserving selection of the entries, and an entry
   * is listed exactly when it passes both the emotion filter and the search.
   */
  lemma FilteredSpec(entries: seq<Card>, filter: string, term: string)
    ensures SubsequenceOf(Filtered(entries, filter, term), entries)
    ensures forall c :: c in Filtered(entries, filter, term) <==>
      c in entries && EmotionPasses(filter, c) && SearchPasses(term, c)
  {
    KeepBoth(entries, ByEmotion(filter), BySearch(term));
    KeepSpec(entries, Both(ByEmotion(filter), BySearch(term)));
  }

  /** Searching first and filtering by emotion second gives the same list. */
  lemma FiltersCommute(entries: seq<Card>, filter: string, term: string)
    ensures Filtered(entries, filter, term) == Keep(Keep(entries, BySearch(term)), ByEmotion(filter))
  {
    var p := ByEmotion(filter);
    var q := BySearch(term);
    KeepBoth(entries, p, q);
    KeepBoth(entries, q, p);
    KeepSameFilter(entries, Both(p, q), Both(q, p));
  }

  /** Filters whose predicates agree on every item give the same list. */
  lemma {:induction false} KeepSameFilter<T>(s: seq<T>, p: T -> bool, q: T -> bool)
    requires forall x :: p(x) == q(x)
    ensures Keep(s, p) == Keep(s, q)
  {
    if s != [] {
      KeepSameFilter(s[1..], p, q);
    }
  }

  /** An empty search term keeps every entry the emotion filter lets through; 'All' with it lists everything. */
  lemma EmptyTermKeepsAll(entries: seq<Card>, filter: string)
    ensures Filtered(entries, filter, "") == Keep(entries, ByEmotion(filter))
    ensures Filtered(entries, All, "") == entries
  {
    forall c: Card ensures BySearch("")(c) {
      ContainsEmpty(Lower(c.title));
    }
    KeepAll(Keep(entries, ByEmotion(filter)), BySearch(""));
    KeepAll(entries, ByEmotion(All));
    KeepAll(entries, BySearch(""));
  }

  /** A filter whose predicate holds everywhere keeps the whole list. */
  lemma {:induction false} KeepAll<T>(s: seq<T>, p: T -> bool)
    requires forall x :: p(x)
    ensures Keep(s, p) == s
  {
    if s != [] {
      KeepAll(s[1..], p);
    }
  }
}
