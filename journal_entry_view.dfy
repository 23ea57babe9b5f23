/**
 * frontend/src/pages/JournalEntryView.jsx: loading one entry and ranking its
 * emotions by confidence for display. The outcome handling of the fetch is
 * shared with the edit page.
 */
module JournalEntryView {
  import opened Wrappers
  import opened JsonValue
  import opened WebApi
  import opened Ranking

  const FetchFailed := "Failed to fetch entry."
  const LoadFailed := "Failed to load journal entry."

  /** How a fetch of `getJournalEntryById` ends for the page. */
  datatype Fetch = Loaded(entry: Json) | FetchError(message: Json)

  /**
   * Lines 26-45: a success with truthy data loads the entry; a readable
   * failure (or a success without data) shows the server's message or the
   * fallback; a throw shows the load failure.
   */
  function Fetched(o: Outcome): (f: Fetch)
    ensures f.Loaded? <==> Succeeded(o) && JsTruthy(Read(o, "data"))
    ensures f.Loaded? ==> f.entry == Read(o, "data") && JsTruthy(f.entry)
    ensures f.FetchError? ==> JsTruthy(f.message)
    ensures !Readable(o) ==> f == FetchError(JStr(LoadFailed))
  {
    if !Readable(o) then FetchError(JStr(LoadFailed))
    else if JsTruthy(Read(o, "success")) && JsTruthy(Read(o, "data")) then Loaded(Read(o, "data"))
    else
      OrTruthy(Read(o, "message"), FetchFailed);
      FetchError(Or(Read(o, "message"), FetchFailed))
  }

  /** One displayed emotion: its name and the confidence the score is formatted from. */
  datatype Shown = Shown(name: Json, confidence: real)

  predicate IsJsNumber(v: Json) {
    v.JInt? || v.JReal?
  }

  /** `emotion.confidence` as a number. */
  function Confidence(e: Json): real {
    if e.JObj? && "confidence" in e.fields && IsJsNumber(e.fields["confidence"]) then
      match e.fields["confidence"]
      case JInt(i) => i as real
      case JReal(r) => r
      case _ => 0.0
    else 0.0
  }

  /** An emotion object whose confidence is a number, so the comparator never yields NaN. */
  predicate Rankable(e: Json) {
    e.JObj? && "confidence" in e.fields && IsJsNumber(e.fields["confidence"])
  }

  /** `entryData` as the sort can order it: an array of rankable emotions. */
  predicate RankableList(v: Json) {
    v.JArr? && forall i :: 0 <= i < |v.items| ==> Rankable(v.items[i])
  }

  /** The `.map` projection of lines 57-60. */
  function ShowAll(items: seq<Json>): (r: seq<Shown>)
    ensures |r| == |items|
    ensures forall i :: 0 <= i < |items| ==> r[i] == Shown(Member(items[i], "name"), Confidence(items[i]))
  {
    seq(|items|, i requires 0 <= i < |items| => Shown(Member(items[i], "name"), Confidence(items[i])))
  }

  /**
   * `processedEmotions` (lines 54-61): nothing to show for a falsy
   * `entryData`, else its items ranked by confidence and projected. None
   * stands for data the model leaves undecided (not an array, or an item
   * without a numeric confidence).
   */
  function Processed(entryData: Json): Option<seq<Shown>> {
    if !JsTruthy(entryData) then Some([])
    else if RankableList(entryData) then Some(ShowAll(SortDesc(entryData.items, Confidence)))
    else None
  }

  /** What `entryData` holds after the in-place sort. */
  function SortedInPlace(entryData: Json): Json {
    if JsTruthy(entryData) && RankableList(entryData) then JArr(SortDesc(entryData.items, Confidence))
    else entryData
  }

  /**
   * The ranking is a reordering of the entry's emotions, highest confidence
   * first, with ties kept in their stored order; null data shows nothing.
   */
  lemma ProcessedRanked(entryData: Json)
    ensures entryData == JNull ==> Processed(entryData) == Some([])
    ensures RankableList(entryData) ==>
      var sorted := SortDesc(entryData.items, Confidence);
      && Processed(entryData) == Some(ShowAll(sorted))
      && multiset(sorted) == multiset(entryData.items)
      && (forall i, j :: 0 <= i < j < |sorted| ==> Processed(entryData).value[i].confidence >= Processed(entryData).value[j].confidence)
      && (forall k: real :: WithKey(sorted, Confidence, k) == WithKey(entryData.items, Confidence, k))
  {
    if RankableList(entryData) {
      var sorted := SortDesc(entryData.items, Confidence);
      SortPermutes(entryData.items, Confidence);
      SortSorted(entryData.items, Confidence);
      forall k: real ensures WithKey(sorted, Confidence, k) == WithKey(entryData.items, Confidence, k) {
        SortStable(entryData.items, Confidence, k);
      }
    }
  }

  /** `processedEmotions[0]`, undefined for an empty list. */
  function Dominant(processed: seq<Shown>): Option<Shown> {
    if processed == [] then None else Some(processed[0])
  }

  /** The dominant emotion has the highest confidence of all the entry's emotions. */
  lemma DominantIsMax(entryData: Json)
    requires RankableList(entryData) && entryData.items != []
    ensures Processed(entryData).Some?
    ensures Dominant(Processed(entryData).value).Some?
    ensures forall e :: e in entryData.items ==> Dominant(Processed(entryData).value).value.confidence >= Confidence(e)
  {
    FirstIsMax(entryData.items, Confidence);
  }

  /** The page's state. `loading` starts null; it is modelled by its truthiness. */
  class EntryView {
    var title: Json
    var content: Json
    var createdAt: string
    var entryData: Json
    var loading: bool
    var error: Json

    constructor ()
      ensures title == JStr("") && content == JStr("") && createdAt == ""
      ensures entryData == JNull && !loading && error == JNull
    {
      title := JStr("");
      content := JStr("");
      createdAt := "";
      entryData := JNull;
      loading := false;
      error := JNull;
    }

    /**
     * `fetchEntry` (lines 23-49). `formatDate` stands for
     * `new Date(v).toLocaleString(...)`.
     */
    method FetchEntry(o: Outcome, formatDate: Json -> string)
      modifies this
      ensures !loading
      ensures Fetched(o).Loaded? ==>
        var entry := Fetched(o).entry;
        && title == Member(entry, "title") && content == Member(entry, "content")
        && createdAt == formatDate(Member(entry, "created_at")) && entryData == Member(entry, "emotions")
        && error == old(error)
      ensures Fetched(o).FetchError? ==>
        && error == Fetched(o).message
        && title == old(title) && content == old(content) && createdAt == old(createdAt) && entryData == old(entryData)
    {
      loading := true;
      match Fetched(o) {
        case Loaded(entry) =>
          title := Member(entry, "title");
          content := Member(entry, "content");
          createdAt := formatDate(Member(entry, "created_at"));
          entryData := Member(entry, "emotions");
        case FetchError(message) =>
          error := message;
      }
      loading := false;
    }

    /** Rendering: `processedEmotions`, whose `.sort` reorders `entryData` itself. */
    method ProcessEmotions() returns (processed: Option<seq<Shown>>)
      modifies this
      ensures processed == Processed(old(entryData))
      ensures entryData == SortedInPlace(old(entryData))
      ensures title == old(title) && content == old(content) && createdAt == old(createdAt)
      ensures loading == old(loading) && error == old(error)
    {
      if !JsTruthy(entryData) {
        processed := Some([]);
      } else if RankableList(entryData) {
        entryData := JArr(SortDesc(entryData.items, Confidence));
        processed := Some(ShowAll(entryData.items));
      } else {
        processed := None;
      }
    }
  }
}
