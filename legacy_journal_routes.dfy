/**
 * back_end/app/journals/routes.py: the older journal handlers, which talk to
 * the table directly and answer with an HTTP reply. The logged-in user's id,
 * the outcome of `analyze_emotions(content)` (module EmotionModelRun for a
 * string) and the outcome of `db.session.commit()` are parameters. An
 * exception that escapes a handler leaves the table as it was.
 */
module LegacyJournalRoutes {
  import opened Wrappers
  import opened JsonValue
  import opened AppErrors
  import Models
  import opened Ownership
  import PyDict
  import JournalServices

  const ListFound := "Journal entries found successfully"
  const NoEntries := "No journal entries found"
  const ContentRequired := "Content is required to create a journal entry."
  const Created := "Journal entry created successfully."
  const Updated := "Journal entry updated successfully."
  const Deleted := "Journal entry deleted successfully."

  /** `analyze_emotions(content)`: the label-to-score dict, or the exception it raised. */
  type Analyzer = Json -> Result<PyDict.Pairs, Fault>

  /** What `make_response` and `make_error` build, without the request path. */
  datatype Reply = Ok(status: int, message: string, data: Json) | Err(status: int, message: string)

  /**
   * A row of this version's `journal_entries` table: title and content hold
   * whatever JSON values the request carried.
   */
  datatype Entry = Entry(id: nat, userId: nat, title: Json, content: Json, createdAt: Models.Instant, emotions: seq<Models.Emotion>)

  /** The `user_id` column of an entry. */
  function Owner(e: Entry): nat {
    e.userId
  }

  /** `JournalEntry.to_dict()` of this version. */
  function EntryToDict(e: Entry): (d: map<string, Json>)
    ensures d.Keys == {"id", "title", "content", "created_at", "emotions"}
    ensures d["id"] == JInt(e.id) && d["title"] == e.title && d["content"] == e.content
    ensures d["created_at"] == JStr(e.createdAt.iso) && d["emotions"] == Models.EmotionList(e.emotions)
  {
    map[
      "id" := JInt(e.id),
      "title" := e.title,
      "content" := e.content,
      "created_at" := JStr(e.createdAt.iso),
      "emotions" := Models.EmotionList(e.emotions)]
  }

  function DigitChar(d: nat): char
    requires d < 10
  {
    "0123456789"[d]
  }

  /** `str(n)` for a non-negative integer. */
  function NatToString(n: nat): (s: string)
    ensures s != []
    ensures forall i :: 0 <= i < |s| ==> '0' <= s[i] <= '9'
  {
    if n < 10 then [DigitChar(n)] else NatToString(n / 10) + [DigitChar(n % 10)]
  }

  function NotFound(id: nat): string {
    "Journal entry with the id " + NatToString(id) + " is not found."
  }

  function Found(id: nat): string {
    "Journal entry with id " + NatToString(id) + " found successfully"
  }

  class LegacyJournals {
    var entries: map<nat, Entry>
    var nextId: nat
    /**
     * `default=datetime.now(timezone.utc)` is evaluated once, when the model
     * module is imported, so every row gets that same instant.
     */
    const startedAt: Models.Instant

    /** Every entry is filed under its own id, below the next id, stamped with the import time. */
    ghost predicate Valid()
      reads this
    {
      forall id :: id in entries ==>
        && entries[id].id == id && id < nextId && entries[id].createdAt == startedAt
        && Models.AllStorable(entries[id].emotions)
    }

    constructor (importTime: Models.Instant)
      ensures Valid() && entries == map[] && nextId == 1 && startedAt == importTime
    {
      entries := map[];
      nextId := 1;
      startedAt := importTime;
    }

    /**
     * The rows of the user's ids, in ascending id order: each owned row
     * once, and nothing else.
     */
    static lemma ListingFacts(table: map<nat, Entry>, userId: nat, n: nat, items: seq<Json>)
      requires forall k :: k in table ==> table[k].id == k && k < n
      requires var ids := OwnedIds(table, Owner, userId, n);
        |items| == |ids| && forall i :: 0 <= i < |ids| ==> items[i] == JObj(EntryToDict(table[ids[i]]))
      ensures forall d :: d in items ==> exists id :: OwnedBy(table, Owner, id, userId) && d == JObj(EntryToDict(table[id]))
      ensures forall id :: OwnedBy(table, Owner, id, userId) ==> JObj(EntryToDict(table[id])) in items
      ensures forall i, j :: 0 <= i < j < |items| ==> items[i] != items[j]
    {
      var ids := OwnedIds(table, Owner, userId, n);
      forall d | d in items
        ensures exists id :: OwnedBy(table, Owner, id, userId) && d == JObj(EntryToDict(table[id]))
      {
        var i :| 0 <= i < |items| && items[i] == d;
        assert OwnedBy(table, Owner, ids[i], userId);
      }
      forall id | OwnedBy(table, Owner, id, userId) ensures JObj(EntryToDict(table[id])) in items {
        OwnedIdsComplete(table, Owner, userId, n, id);
        var i :| 0 <= i < |ids| && ids[i] == id;
        assert items[i] == JObj(EntryToDict(table[id]));
      }
      forall i, j | 0 <= i < j < |items| ensures items[i] != items[j] {
        assert items[i].fields["id"] == JInt(ids[i]) && items[j].fields["id"] == JInt(ids[j]);
      }
    }

    /** `get_journal_entries`: the user's entries, or 404 when there are none. */
    function GetJournalEntries(userId: nat): (r: Reply)
      requires Valid()
      reads this
      ensures r.Err? <==> forall id :: !OwnedBy(entries, Owner, id, userId)
      ensures r.Err? ==> r == Err(404, NoEntries)
      ensures r.Ok? ==> r.status == 200 && r.message == ListFound && r.data.JArr? && r.data.items != []
      ensures r.Ok? ==> forall d :: d in r.data.items ==>
        exists id :: OwnedBy(entries, Owner, id, userId) && d == JObj(EntryToDict(entries[id]))
      ensures r.Ok? ==> forall id :: OwnedBy(entries, Owner, id, userId) ==> JObj(EntryToDict(entries[id])) in r.data.items
      ensures r.Ok? ==> forall i, j :: 0 <= i < j < |r.data.items| ==> r.data.items[i] != r.data.items[j]
    {
      var table := entries;
      var ids := OwnedIds(table, Owner, userId, nextId);
      var items := seq(|ids|, i requires 0 <= i < |ids| => JObj(EntryToDict(table[ids[i]])));
      ListingFacts(table, userId, nextId, items);
      assert items != [] ==> OwnedBy(entries, Owner, ids[0], userId);
      if items != [] then Ok(200, ListFound, JArr(items)) else Err(404, NoEntries)
    }

    /** `get_journal_entry`: the entry, if it is there and the user's. */
    function GetJournalEntry(entryId: nat, userId: nat): (r: Reply)
      reads this
      ensures r.Ok? <==> OwnedBy(entries, Owner, entryId, userId)
      ensures r.Ok? ==> r == Ok(200, Found(entryId), JObj(EntryToDict(entries[entryId])))
      ensures r.Err? ==> r == Err(404, NotFound(entryId))
    {
      if OwnedBy(entries, Owner, entryId, userId) then Ok(200, Found(entryId), JObj(EntryToDict(entries[entryId])))
      else Err(404, NotFound(entryId))
    }

    /**
     * `create_journal_entry`: a falsy content answers 400; otherwise the
     * entry gets one emotion per analysed label, and a missing title is None.
     */
    method CreateJournalEntry(data: Body, userId: nat, analyze: Analyzer, commitOk: bool)
      returns (r: Result<Reply, Fault>)
      requires Valid()
      modifies this
      ensures Valid()
      ensures data.None? ==> r == Failure(Crash(AttributeError))
      ensures data.Some? && !PyTruthy(Get(data.value, "content")) ==> r == Success(Err(400, ContentRequired))
      ensures data.Some? && PyTruthy(Get(data.value, "content")) ==>
        var content := Get(data.value, "content");
        && (analyze(content).Failure? ==> r == Failure(analyze(content).error))
        && (analyze(content).Success? && !(commitOk && Models.AllStorable(JournalServices.EmotionsOf(analyze(content).value))) ==>
              r == Failure(Crash(CommitFailed)))
        && (analyze(content).Success? && commitOk && Models.AllStorable(JournalServices.EmotionsOf(analyze(content).value)) ==>
             var e := Entry(old(nextId), userId, Get(data.value, "title"), content, startedAt,
                            JournalServices.EmotionsOf(analyze(content).value));
             && entries == old(entries)[old(nextId) := e] && nextId == old(nextId) + 1
             && r == Success(Ok(201, Created, JObj(EntryToDict(e)))))
      ensures !(r.Success? && r.value.Ok?) ==> entries == old(entries) && nextId == old(nextId)
    {
      if data.None? {
        // `None.get('title')`
        return Failure(Crash(AttributeError));
      }
      var title := Get(data.value, "title");
      var content := Get(data.value, "content");
      if !PyTruthy(content) {
        return Success(Err(400, ContentRequired));
      }
      var entry := Entry(nextId, userId, title, content, startedAt, []);
      match analyze(content) {
        case Failure(f) =>
          return Failure(f);
        case Success(pairs) =>
          var emotions := JournalServices.AppendEmotions(entry.emotions, pairs);
          assert emotions == JournalServices.EmotionsOf(pairs);
          entry := entry.(emotions := emotions);
      }
      // A None name or score breaks a NOT NULL column at the commit.
      if !commitOk || !Models.AllStorable(entry.emotions) {
        return Failure(Crash(CommitFailed));
      }
      entries := entries[nextId := entry];
      nextId := nextId + 1;
      r := Success(Ok(201, Created, JObj(EntryToDict(entry))));
    }

    /**
     * `update_journal_entry`: a key that is absent or null leaves its field
     * alone; any other content, even the stored one, replaces the emotions
     * with a fresh analysis.
     */
    method UpdateJournalEntry(entryId: nat, data: Body, userId: nat, analyze: Analyzer, commitOk: bool)
      returns (r: Result<Reply, Fault>)
      requires Valid()
      modifies this
      ensures Valid() && nextId == old(nextId)
      ensures !OwnedBy(old(entries), Owner, entryId, userId) ==> r == Success(Err(404, NotFound(entryId)))
      ensures OwnedBy(old(entries), Owner, entryId, userId) && data.None? ==> r == Failure(Crash(AttributeError))
      ensures OwnedBy(old(entries), Owner, entryId, userId) && data.Some? ==>
        var e := old(entries)[entryId];
        var title := Get(data.value, "title");
        var content := Get(data.value, "content");
        var e' := e.(title := if title != JNull then title else e.title,
                     content := if content != JNull then content else e.content);
        && (content == JNull && !commitOk ==> r == Failure(Crash(CommitFailed)))
        && (content == JNull && commitOk ==>
              entries == old(entries)[entryId := e'] && r == Success(Ok(200, Updated, JObj(EntryToDict(e')))))
        && (content != JNull ==>
             && (analyze(content).Failure? ==> r == Failure(analyze(content).error))
             && (analyze(content).Success? && !(commitOk && Models.AllStorable(JournalServices.EmotionsOf(analyze(content).value))) ==>
                   r == Failure(Crash(CommitFailed)))
             && (analyze(content).Success? && commitOk && Models.AllStorable(JournalServices.EmotionsOf(analyze(content).value)) ==>
                  var e'' := e'.(emotions := JournalServices.EmotionsOf(analyze(content).value));
                  entries == old(entries)[entryId := e''] && r == Success(Ok(200, Updated, JObj(EntryToDict(e''))))))
      ensures !(r.Success? && r.value.Ok?) ==> entries == old(entries)
    {
      if !OwnedBy(entries, Owner, entryId, userId) {
        return Success(Err(404, NotFound(entryId)));
      }
      if data.None? {
        return Failure(Crash(AttributeError));
      }
      var entry := entries[entryId];
      var title := Get(data.value, "title");
      var content := Get(data.value, "content");
      if title != JNull {
        entry := entry.(title := title);
      }
      if content != JNull {
        entry := entry.(content := content, emotions := []);
        match analyze(content) {
          case Failure(f) =>
            return Failure(f);
          case Success(pairs) =>
            var emotions := JournalServices.AppendEmotions(entry.emotions, pairs);
            assert emotions == JournalServices.EmotionsOf(pairs);
            entry := entry.(emotions := emotions);
        }
      }
      if !commitOk || !Models.AllStorable(entry.emotions) {
        return Failure(Crash(CommitFailed));
      }
      entries := entries[entryId := entry];
      r := Success(Ok(200, Updated, JObj(EntryToDict(entry))));
    }

    /** `delete_journal_entry`: removes exactly the matched entry and answers with empty data. */
    method DeleteJournalEntry(entryId: nat, userId: nat, commitOk: bool) returns (r: Result<Reply, Fault>)
      requires Valid()
      modifies this
      ensures Valid() && nextId == old(nextId)
      ensures !OwnedBy(old(entries), Owner, entryId, userId) ==> r == Success(Err(404, NotFound(entryId)))
      ensures OwnedBy(old(entries), Owner, entryId, userId) && !commitOk ==> r == Failure(Crash(CommitFailed))
      ensures OwnedBy(old(entries), Owner, entryId, userId) && commitOk ==>
        r == Success(Ok(200, Deleted, JObj(map[]))) && entries == old(entries) - {entryId}
      ensures !(r.Success? && r.value.Ok?) ==> entries == old(entries)
    {
      if !OwnedBy(entries, Owner, entryId, userId) {
        return Success(Err(404, NotFound(entryId)));
      }
      if !commitOk {
        return Failure(Crash(CommitFailed));
      }
      entries := entries - {entryId};
      r := Success(Ok(200, Deleted, JObj(map[])));
    }
  }

  /** The decimal digits name the number: reading them back gives `n`. */
  function DigitsValue(s: string): nat
    requires forall i :: 0 <= i < |s| ==> '0' <= s[i] <= '9'
  {
    if s == [] then 0 else 10 * DigitsValue(s[..|s| - 1]) + (s[|s| - 1] - '0') as nat
  }

  /** The digits in the messages read back as the id, so different ids give different messages. */
  lemma {:induction false} NatToStringRoundTrip(n: nat)
    ensures DigitsValue(NatToString(n)) == n
  {
    var s := NatToString(n);
    if n >= 10 {
      NatToStringRoundTrip(n / 10);
      assert s[..|s| - 1] == NatToString(n / 10);
    }
    assert "0123456789"[n % 10] - '0' == (n % 10) as char;
  }
}
