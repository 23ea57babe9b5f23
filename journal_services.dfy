/**
 * backend/app/journals/services.py: journal entries scoped by owner. The
 * table is a map from entry id to entry; every operation takes the id of the
 * logged-in user. The outcome of `EmotionAnalysisService.emotion_detection`
 * for a text (module EmotionAnalysis, given the service's reply), the clock
 * and the outcome of `db.session.commit()` are parameters. A failure at
 * any step leaves the table as it was: nothing is written before the commit,
 * and a failed commit is rolled back.
 */
module JournalServices {
  import opened Wrappers
  import opened JsonValue
  import opened AppErrors
  import opened Models
  import opened PyText
  import PyDict
  import opened Ownership

  const BodyRequired := "JSON body is required."
  const TitleRequired := "Title is required."
  const ContentRequired := "content is required."
  const EntryNotFound := "Journal entry not found."

  /** `EmotionAnalysisService.emotion_detection(text)`: a dict, None, or the exception it raised. */
  type Detector = string -> Result<Option<PyDict.Pairs>, Fault>

  /** One Emotion row per (name, score) pair, in the dict's order. */
  function EmotionsOf(pairs: PyDict.Pairs): (es: seq<Emotion>)
    ensures |es| == |pairs|
    ensures forall i :: 0 <= i < |pairs| ==> es[i].ToDict() == map["name" := pairs[i].0, "confidence" := pairs[i].1]
  {
    seq(|pairs|, i requires 0 <= i < |pairs| => Emotion(pairs[i].0, pairs[i].1))
  }

  /** Lines 52-58 and 99-105: `for name, score in emotions.items(): entry.emotions.append(...)`. */
  method AppendEmotions(existing: seq<Emotion>, pairs: PyDict.Pairs) returns (es: seq<Emotion>)
    ensures es == existing + EmotionsOf(pairs)
  {
    es := existing;
    for i := 0 to |pairs|
      invariant es == existing + EmotionsOf(pairs[..i])
    {
      assert EmotionsOf(pairs[..i + 1]) == EmotionsOf(pairs[..i]) + [Emotion(pairs[i].0, pairs[i].1)];
      es := es + [Emotion(pairs[i].0, pairs[i].1)];
    }
    assert pairs[..|pairs|] == pairs;
  }

  /**
   * The checks of `create_journal_entry` (lines 34-42): the body, then title
   * and content as sent, then `.strip()` on each. The result is the stripped
   * title and content.
   */
  function CreateInput(data: Body): (r: Result<(string, string), Fault>)
    ensures r.Success? <==>
      !NoBody(data) && !MissingOrFalsy(data.value, "title") && !MissingOrFalsy(data.value, "content")
      && data.value["title"].JStr? && data.value["content"].JStr?
    ensures r.Success? ==> r.value == (Strip(data.value["title"].s), Strip(data.value["content"].s))
  {
    if NoBody(data) then Failure(Raise(BadRequestError, BodyRequired))
    else
      var m := data.value;
      if MissingOrFalsy(m, "title") then Failure(Raise(BadRequestError, TitleRequired))
      else if MissingOrFalsy(m, "content") then Failure(Raise(BadRequestError, ContentRequired))
      else if !m["title"].JStr? || !m["content"].JStr? then Failure(Crash(AttributeError))
      else Success((Strip(m["title"].s), Strip(m["content"].s)))
  }

  /** The first failing check decides the message: body, then title, then content. */
  lemma CreateInputOrder(data: Body)
    ensures NoBody(data) ==> CreateInput(data) == Failure(Raise(BadRequestError, BodyRequired))
    ensures !NoBody(data) && MissingOrFalsy(data.value, "title") ==>
      CreateInput(data) == Failure(Raise(BadRequestError, TitleRequired))
    ensures !NoBody(data) && !MissingOrFalsy(data.value, "title") && MissingOrFalsy(data.value, "content") ==>
      CreateInput(data) == Failure(Raise(BadRequestError, ContentRequired))
  {
  }

  /** The raw values are checked but the stripped ones stored: a title of spaces is accepted as "". */
  lemma {:induction false} BlankTitleStoredEmpty(data: map<string, Json>, blank: string)
    requires blank != [] && AllSpace(blank)
    requires "title" in data && data["title"] == JStr(blank)
    requires "content" in data && data["content"].JStr? && data["content"].s != []
    ensures CreateInput(Some(data)).Success? && CreateInput(Some(data)).value.0 == ""
  {
    StripEmptyIffAllSpace(blank);
  }

  /**
   * The checks of `update_journal_entry` on the body (lines 80-92). For each of
   * title and content: None when the key is absent, else its stripped value.
   */
  function UpdateInput(data: Body): (r: Result<(Option<string>, Option<string>), Fault>)
    ensures r.Success? <==>
      && !NoBody(data)
      && ("title" in data.value ==> PyTruthy(data.value["title"]) && data.value["title"].JStr?)
      && ("content" in data.value ==> PyTruthy(data.value["content"]) && data.value["content"].JStr?)
    ensures r.Success? ==>
      && r.value.0 == (if "title" in data.value then Some(Strip(data.value["title"].s)) else None)
      && r.value.1 == (if "content" in data.value then Some(Strip(data.value["content"].s)) else None)
  {
    if NoBody(data) then Failure(Raise(BadRequestError, BodyRequired))
    else
      var m := data.value;
      if "title" in m && !PyTruthy(m["title"]) then Failure(Raise(BadRequestError, TitleRequired))
      else if "title" in m && !m["title"].JStr? then Failure(Crash(AttributeError))
      else if "content" in m && !PyTruthy(m["content"]) then Failure(Raise(BadRequestError, ContentRequired))
      else if "content" in m && !m["content"].JStr? then Failure(Crash(AttributeError))
      else
        Success((if "title" in m then Some(Strip(m["title"].s)) else None,
                 if "content" in m then Some(Strip(m["content"].s)) else None))
  }

  /** A present `content` that is null or "" is refused, whatever the title. */
  lemma NullContentRefused(data: map<string, Json>)
    requires "content" in data && (data["content"] == JNull || data["content"] == JStr(""))
    requires "title" in data ==> data["title"].JStr? && data["title"].s != []
    ensures UpdateInput(Some(data)) == Failure(Raise(BadRequestError, ContentRequired))
  {
  }

  /** The `user_id` column of an entry. */
  function Owner(e: JournalEntry): nat {
    e.userId
  }

  class JournalStore {
    var entries: map<nat, JournalEntry>
    var nextId: nat

    /** Every entry is filed under its own id, and ids are below the next id. */
    ghost predicate Valid()
      reads this
    {
      forall id :: id in entries ==> entries[id].id == id && id < nextId && AllStorable(entries[id].emotions)
    }

    constructor ()
      ensures Valid() && entries == map[] && nextId == 1
    {
      entries := map[];
      nextId := 1;
    }

    /** `get_journal_entries`: the user's entries, and only those, by id. */
    function GetJournalEntries(userId: nat): (r: seq<map<string, Json>>)
      requires Valid()
      reads this
      ensures forall d :: d in r ==> exists id :: OwnedBy(entries, Owner, id, userId) && d == EntryToDict(entries[id])
      ensures forall id :: OwnedBy(entries, Owner, id, userId) ==> EntryToDict(entries[id]) in r
      ensures forall i, j :: 0 <= i < j < |r| ==> r[i] != r[j]
    {
      var table := entries;
      var ids := OwnedIds(table, Owner, userId, nextId);
      var r := seq(|ids|, i requires 0 <= i < |ids| => EntryToDict(table[ids[i]]));
      assert forall i, j :: 0 <= i < j < |r| ==> r[i] != r[j] by {
        forall i, j | 0 <= i < j < |r| ensures r[i] != r[j] {
          assert r[i]["id"] == JInt(ids[i]) && r[j]["id"] == JInt(ids[j]);
        }
      }
      assert forall id :: OwnedBy(entries, Owner, id, userId) ==> EntryToDict(entries[id]) in r by {
        forall id | OwnedBy(entries, Owner, id, userId) ensures EntryToDict(entries[id]) in r {
          OwnedIdsComplete(entries, Owner, userId, nextId, id);
          var i :| 0 <= i < |ids| && ids[i] == id;
          assert r[i] == EntryToDict(entries[id]);
        }
      }
      r
    }

    /** `get_journal_entry_by_id`. */
    function GetJournalEntryById(entryId: nat, userId: nat): (r: Result<map<string, Json>, Fault>)
      reads this
      ensures r.Success? <==> OwnedBy(entries, Owner, entryId, userId)
      ensures r.Success? ==> r.value == EntryToDict(entries[entryId])
      ensures r.Failure? ==> r.error == Raise(NotFoundError, EntryNotFound)
    {
      if OwnedBy(entries, Owner, entryId, userId) then Success(EntryToDict(entries[entryId]))
      else Failure(Raise(NotFoundError, EntryNotFound))
    }

    /** `create_journal_entry`. */
    method CreateJournalEntry(data: Body, userId: nat, detect: Detector, now: Instant, commitOk: bool)
      returns (r: Result<map<string, Json>, Fault>)
      requires Valid()
      modifies this
      ensures Valid()
      ensures var input := CreateInput(data);
        && (input.Failure? ==> r == Failure(input.error))
        && (input.Success? ==>
             var detected := detect(input.value.1);
             && (detected.Failure? ==> r == Failure(detected.error))
             && (detected == Success(None) ==> r == Failure(Crash(AttributeError)))
             && (detected.Success? && detected.value.Some? && !(commitOk && AllStorable(EmotionsOf(detected.value.value))) ==>
                   r == Failure(Crash(CommitFailed)))
             && (detected.Success? && detected.value.Some? && commitOk && AllStorable(EmotionsOf(detected.value.value)) ==>
                  var e := JournalEntry(old(nextId), userId, Some(input.value.0), input.value.1, Some(now),
                                        EmotionsOf(detected.value.value));
                  && entries == old(entries)[old(nextId) := e]
                  && nextId == old(nextId) + 1
                  && r == Success(EntryToDict(e))))
      ensures r.Failure? ==> entries == old(entries) && nextId == old(nextId)
    {
      match CreateInput(data) {
        case Failure(f) =>
          return Failure(f);
        case Success(input) =>
          var (title, content) := input;
          var entry := JournalEntry(nextId, userId, Some(title), content, Some(now), []);
          match detect(content) {
            case Failure(f) =>
              return Failure(f);
            case Success(None) =>
              // `None.items()`
              return Failure(Crash(AttributeError));
            case Success(Some(pairs)) =>
              var emotions := AppendEmotions(entry.emotions, pairs);
              assert emotions == EmotionsOf(pairs);
              entry := entry.(emotions := emotions);
              // A None name or score breaks a NOT NULL column at the commit.
              if !commitOk || !AllStorable(emotions) {
                return Failure(Crash(CommitFailed));
              }
              entries := entries[nextId := entry];
              nextId := nextId + 1;
              r := Success(EntryToDict(entry));
          }
      }
    }

    /** `update_journal_entry`: ownership first, then the body; only the keys present change anything. */
    method UpdateJournalEntry(entryId: nat, data: Body, userId: nat, detect: Detector, commitOk: bool)
      returns (r: Result<map<string, Json>, Fault>)
      requires Valid()
      modifies this
      ensures Valid() && nextId == old(nextId)
      ensures !OwnedBy(old(entries), Owner, entryId, userId) ==> r == Failure(Raise(NotFoundError, EntryNotFound))
      ensures OwnedBy(old(entries), Owner, entryId, userId) && UpdateInput(data).Failure? ==> r == Failure(UpdateInput(data).error)
      ensures OwnedBy(old(entries), Owner, entryId, userId) && UpdateInput(data).Success? ==>
        var e := old(entries)[entryId];
        var (title, content) := UpdateInput(data).value;
        var redetect := content.Some? && content.value != e.content;
        var e' := e.(title := if title.Some? then title else e.title,
                     content := if content.Some? then content.value else e.content);
        && (!redetect && !commitOk ==> r == Failure(Crash(CommitFailed)))
        && (!redetect && commitOk ==> entries == old(entries)[entryId := e'] && r == Success(EntryToDict(e')))
        && (redetect ==>
             var detected := detect(content.value);
             && (detected.Failure? ==> r == Failure(detected.error))
             && (detected == Success(None) ==> r == Failure(Crash(AttributeError)))
             && (detected.Success? && detected.value.Some? && !(commitOk && AllStorable(EmotionsOf(detected.value.value))) ==>
                   r == Failure(Crash(CommitFailed)))
             && (detected.Success? && detected.value.Some? && commitOk && AllStorable(EmotionsOf(detected.value.value)) ==>
                  var e'' := e'.(emotions := EmotionsOf(detected.value.value));
                  entries == old(entries)[entryId := e''] && r == Success(EntryToDict(e''))))
      ensures r.Failure? ==> entries == old(entries)
    {
      if !OwnedBy(entries, Owner, entryId, userId) {
        return Failure(Raise(NotFoundError, EntryNotFound));
      }
      var entry := entries[entryId];
      var input := UpdateInput(data);
      if input.Failure? {
        return Failure(input.error);
      }
      var title, content := input.value.0, input.value.1;
      if title.Some? && Some(title.value) != entry.title {
        entry := entry.(title := Some(title.value));
      }
      if content.Some? && content.value != entry.content {
        entry := entry.(content := content.value, emotions := []);
        var detected := detect(content.value);
        if detected.Failure? {
          return Failure(detected.error);
        }
        if detected.value.None? {
          return Failure(Crash(AttributeError));
        }
        var emotions := AppendEmotions(entry.emotions, detected.value.value);
        assert emotions == EmotionsOf(detected.value.value);
        entry := entry.(emotions := emotions);
      }
      if !commitOk || !AllStorable(entry.emotions) {
        return Failure(Crash(CommitFailed));
      }
      entries := entries[entryId := entry];
      r := Success(EntryToDict(entry));
    }

    /** `delete_journal_entry`: removes exactly the matched entry. */
    method DeleteJournalEntry(entryId: nat, userId: nat, commitOk: bool) returns (r: Result<(), Fault>)
      requires Valid()
      modifies this
      ensures Valid() && nextId == old(nextId)
      ensures !OwnedBy(old(entries), Owner, entryId, userId) ==> r == Failure(Raise(NotFoundError, EntryNotFound))
      ensures OwnedBy(old(entries), Owner, entryId, userId) && !commitOk ==> r == Failure(Crash(CommitFailed))
      ensures OwnedBy(old(entries), Owner, entryId, userId) && commitOk ==> r == Success(()) && entries == old(entries) - {entryId}
      ensures r.Failure? ==> entries == old(entries)
    {
      if !OwnedBy(entries, Owner, entryId, userId) {
        return Failure(Raise(NotFoundError, EntryNotFound));
      }
      if !commitOk {
        return Failure(Crash(CommitFailed));
      }
      entries := entries - {entryId};
      r := Success(());
    }
  }

  /**
   * The edit page sends `content: null` when the text is unchanged; the
   * service refuses it, so such a save never reaches the table.
   */
  lemma UnchangedEditRefused(title: string)
    requires title != []
    ensures UpdateInput(Some(map["title" := JStr(title), "content" := JNull]))
      == Failure(Raise(BadRequestError, ContentRequired))
  {
    NullContentRefused(map["title" := JStr(title), "content" := JNull]);
  }
}
