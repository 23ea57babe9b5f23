/**
 * frontend/src/pages/JournalEntryCreate.jsx: the new-entry form's checks
 * and its save handler.
 */
module JournalEntryCreate {
  import opened Wrappers
  import opened JsonValue
  import opened WebApi
  import opened AppErrors
  import opened PyText
  import opened JournalEntryEdit
  import JournalServices

  const TitleMissing := "You must enter the title to save."
  const ContentMissing := "You must enter the journal entry content to save."
  const CreateFailed := "Failed to create entry."

  /** The body of `createJournalEntry` (lines 32-35). */
  function CreateBody(title: string, content: string): map<string, Json> {
    map["title" := JStr(title), "content" := JStr(content)]
  }

  /** The form's own checks (lines 20-29): the title first, then the content; only emptiness counts. */
  function ClientCheck(title: string, content: string): (r: Option<string>)
    ensures r.None? <==> title != "" && content != ""
    ensures title == "" ==> r == Some(TitleMissing)
  {
    if title == "" then Some(TitleMissing)
    else if content == "" then Some(ContentMissing)
    else None
  }

  /**
   * The page and the service check the same things in the same order: a
   * body the page lets through is accepted by `create_journal_entry`, with
   * both texts stripped (so whitespace-only text is stored empty), and the
   * service refuses exactly what the page would have stopped.
   */
  lemma ClientMatchesService(title: string, content: string)
    ensures JournalServices.CreateInput(Some(CreateBody(title, content))).Success? <==> ClientCheck(title, content).None?
    ensures ClientCheck(title, content).None? ==>
      JournalServices.CreateInput(Some(CreateBody(title, content))).value == (Strip(title), Strip(content))
    ensures ClientCheck(title, content) == Some(TitleMissing) ==>
      JournalServices.CreateInput(Some(CreateBody(title, content))) == Failure(Raise(BadRequestError, JournalServices.TitleRequired))
    ensures ClientCheck(title, content) == Some(ContentMissing) ==>
      JournalServices.CreateInput(Some(CreateBody(title, content))) == Failure(Raise(BadRequestError, JournalServices.ContentRequired))
  {
    var body := CreateBody(title, content);
    assert body["title"] == JStr(title) && body["content"] == JStr(content);
  }

  /** The page's state. `loading` starts null; it is modelled by its truthiness. */
  class EntryCreate {
    var title: string
    var content: string
    var loading: bool
    var error: Json

    constructor ()
      ensures title == "" && content == "" && !loading && error == JNull
    {
      title := "";
      content := "";
      loading := false;
      error := JNull;
    }

    method SetTitle(value: string)
      modifies this
      ensures title == value && content == old(content) && loading == old(loading) && error == old(error)
    {
      title := value;
    }

    method SetContent(value: string)
      modifies this
      ensures content == value && title == old(title) && loading == old(loading) && error == old(error)
    {
      content := value;
    }

    /**
     * `handleSave` (lines 18-46): a failed form check shows its message and
     * sends nothing; otherwise the body is sent, a success opens the new
     * entry and a failure or throw shows an error. Loading ends false on
     * every path.
     */
    method HandleSave(o: Outcome) returns (sent: Option<map<string, Json>>, nav: Option<Route>)
      modifies this
      ensures !loading
      ensures title == old(title) && content == old(content)
      ensures ClientCheck(title, content).Some? ==>
        sent == None && nav == None && error == JStr(ClientCheck(title, content).value)
      ensures ClientCheck(title, content).None? ==> sent == Some(CreateBody(title, content))
      ensures nav.Some? <==> ClientCheck(title, content).None? && Succeeded(o) && Read(o, "data") != JNull
      ensures nav.Some? ==> nav.value == EntryPage(Member(Read(o, "data"), "id")) && error == old(error)
      ensures ClientCheck(title, content).None? && Succeeded(o) && Read(o, "data") == JNull ==>
        error == JStr(SavePrefix + NoDataId)
      ensures ClientCheck(title, content).None? && Readable(o) && !Succeeded(o) ==>
        error == Or(Read(o, "message"), CreateFailed)
      ensures ClientCheck(title, content).None? && !Readable(o) ==>
        error == JStr(SavePrefix + ThrownMessage(o))
    {
      loading := true;
      sent := None;
      nav := None;
      if title == "" {
        error := JStr(TitleMissing);
        loading := false;
        return;
      }
      if content == "" {
        error := JStr(ContentMissing);
        loading := false;
        return;
      }
      sent := Some(CreateBody(title, content));
      if !Readable(o) {
        error := JStr(SavePrefix + ThrownMessage(o));
      } else if JsTruthy(Read(o, "success")) {
        var data := Read(o, "data");
        if data == JNull {
          error := JStr(SavePrefix + NoDataId);
        } else {
          nav := Some(EntryPage(Member(data, "id")));
        }
      } else {
        error := Or(Read(o, "message"), CreateFailed);
      }
      loading := false;
    }
  }
}
