/**
 * frontend/src/pages/JournalEntryEdit.jsx: loading an entry for editing,
 * saving the edit and deleting the entry.
 */
module JournalEntryEdit {
  import opened Wrappers
  import opened JsonValue
  import opened WebApi
  import opened AppErrors
  import opened JournalEntryView
  import opened PyText
  import JournalServices

  const UpdateFailed := "Failed to update entry."
  const DeleteFailed := "Failed to delete entry."
  const DeleteNetworkError := "Failed to delete journal entry."
  const SavePrefix := "Error during save: "
  /** The TypeError of `response.data.id` when the data is missing. */
  const NoDataId := "Cannot read properties of undefined (reading 'id')"

  /** Where the page navigates: `/app/journals/view/${id}` or `/app/journals`. */
  datatype Route = EntryPage(id: Json) | JournalsPage

  /**
   * The body of `updateJournalEntry` as written (lines 51-54): the title,
   * and the content only when it differs from the loaded text, else null.
   */
  function Payload(title: Json, initialContent: Json, content: Json): (body: map<string, Json>)
    ensures body.Keys == {"title", "content"} && body["title"] == title
    ensures body["content"] == JNull <==> initialContent == content || content == JNull
    ensures initialContent != content ==> body["content"] == content
  {
    map["title" := title, "content" := if initialContent == content then JNull else content]
  }

  /**
   * Saving a title-only edit fails: an unchanged content goes out as null,
   * which the service's update refuses with "content is required.".
   */
  lemma UnchangedContentRefused(title: string, text: Json)
    requires title != []
    ensures JournalServices.UpdateInput(Some(Payload(JStr(title), text, text)))
      == Failure(Raise(BadRequestError, JournalServices.ContentRequired))
  {
    assert Payload(JStr(title), text, text) == map["title" := JStr(title), "content" := JNull];
    JournalServices.UnchangedEditRefused(title);
  }

  /** The body the service accepts for a title-only edit: an unchanged content is left out. */
  function PayloadCorrected(title: Json, initialContent: Json, content: Json): (body: map<string, Json>)
    ensures "title" in body && body["title"] == title
    ensures "content" in body <==> initialContent != content
    ensures "content" in body ==> body["content"] == content
  {
    if initialContent == content then map["title" := title] else map["title" := title, "content" := content]
  }

  /**
   * With the corrected body an unchanged content is left as it is (no
   * re-detection), and a changed non-empty text is stripped and stored.
   */
  lemma CorrectedPayloadAccepted(title: string, initialContent: Json, content: Json)
    requires title != []
    requires initialContent != content ==> content.JStr? && content.s != []
    ensures JournalServices.UpdateInput(Some(PayloadCorrected(JStr(title), initialContent, content))).Success?
    ensures initialContent == content ==>
      JournalServices.UpdateInput(Some(PayloadCorrected(JStr(title), initialContent, content))).value.1 == None
    ensures initialContent != content ==>
      JournalServices.UpdateInput(Some(PayloadCorrected(JStr(title), initialContent, content))).value.1 == Some(Strip(content.s))
  {
    var body := PayloadCorrected(JStr(title), initialContent, content);
    assert body["title"] == JStr(title);
  }

  /** The page's state. `loading` starts null; it is modelled by its truthiness. */
  class EntryEdit {
    var title: Json
    var initialContent: Json
    var content: Json
    var loading: bool
    var error: Json
    var isSaving: bool

    constructor ()
      ensures title == JStr("") && initialContent == JStr("") && content == JStr("")
      ensures !loading && error == JNull && !isSaving
    {
      title := JStr("");
      initialContent := JStr("");
      content := JStr("");
      loading := false;
      error := JNull;
      isSaving := false;
    }

    /** `fetchEntry` (lines 26-43): the loaded text becomes both the content and the initial content. */
    method FetchEntry(o: Outcome)
      modifies this
      ensures !loading && isSaving == old(isSaving)
      ensures Fetched(o).Loaded? ==>
        && title == Member(Fetched(o).entry, "title")
        && content == Member(Fetched(o).entry, "content") && initialContent == content
        && error == old(error)
      ensures Fetched(o).FetchError? ==>
        && error == Fetched(o).message
        && title == old(title) && content == old(content) && initialContent == old(initialContent)
    {
      loading := true;
      match Fetched(o) {
        case Loaded(entry) =>
          title := Member(entry, "title");
          content := Member(entry, "content");
          initialContent := Member(entry, "content");
        case FetchError(message) =>
          error := message;
      }
      loading := false;
    }

    method SetTitle(value: Json)
      modifies this
      ensures title == value && content == old(content) && initialContent == old(initialContent)
      ensures loading == old(loading) && error == old(error) && isSaving == old(isSaving)
    {
      title := value;
    }

    method SetContent(value: Json)
      modifies this
      ensures content == value && title == old(title) && initialContent == old(initialContent)
      ensures loading == old(loading) && error == old(error) && isSaving == old(isSaving)
    {
      content := value;
    }

    /**
     * Sending `body` and handling the reply (lines 49-68): a success makes
     * the current content the initial one and opens the saved entry; a
     * failure shows the message; a throw shows "Error during save: ...".
     */
    method Save(body: map<string, Json>, o: Outcome) returns (nav: Option<Route>)
      modifies this
      ensures !loading && !isSaving
      ensures title == old(title) && content == old(content)
      ensures initialContent == (if Succeeded(o) then old(content) else old(initialContent))
      ensures nav.Some? <==> Succeeded(o) && Read(o, "data") != JNull
      ensures nav.Some? ==> nav.value == EntryPage(Member(Read(o, "data"), "id")) && error == old(error)
      ensures Succeeded(o) && Read(o, "data") == JNull ==> error == JStr(SavePrefix + NoDataId)
      ensures Readable(o) && !Succeeded(o) ==> error == Or(Read(o, "message"), UpdateFailed)
      ensures !Readable(o) ==> error == JStr(SavePrefix + ThrownMessage(o))
    {
      loading := true;
      isSaving := true;
      nav := None;
      if !Readable(o) {
        error := JStr(SavePrefix + ThrownMessage(o));
      } else if JsTruthy(Read(o, "success")) {
        initialContent := content;
        var data := Read(o, "data");
        if data == JNull {
          error := JStr(SavePrefix + NoDataId);
        } else {
          nav := Some(EntryPage(Member(data, "id")));
        }
      } else {
        error := Or(Read(o, "message"), UpdateFailed);
      }
      loading := false;
      isSaving := false;
    }

    /** `handleSave` as written: sends `Payload`. */
    method HandleSave(o: Outcome) returns (sent: map<string, Json>, nav: Option<Route>)
      modifies this
      ensures sent == Payload(old(title), old(initialContent), old(content))
      ensures !loading && !isSaving
      ensures title == old(title) && content == old(content)
      ensures initialContent == (if Succeeded(o) then old(content) else old(initialContent))
      ensures nav.Some? <==> Succeeded(o) && Read(o, "data") != JNull
      ensures nav.Some? ==> nav.value == EntryPage(Member(Read(o, "data"), "id")) && error == old(error)
      ensures Succeeded(o) && Read(o, "data") == JNull ==> error == JStr(SavePrefix + NoDataId)
      ensures Readable(o) && !Succeeded(o) ==> error == Or(Read(o, "message"), UpdateFailed)
      ensures !Readable(o) ==> error == JStr(SavePrefix + ThrownMessage(o))
    {
      sent := Payload(title, initialContent, content);
      nav := Save(sent, o);
    }

    /** `handleSave` sending `PayloadCorrected`. */
    method HandleSaveCorrected(o: Outcome) returns (sent: map<string, Json>, nav: Option<Route>)
      modifies this
      ensures sent == PayloadCorrected(old(title), old(initialContent), old(content))
      ensures !loading && !isSaving
      ensures title == old(title) && content == old(content)
      ensures initialContent == (if Succeeded(o) then old(content) else old(initialContent))
      ensures nav.Some? <==> Succeeded(o) && Read(o, "data") != JNull
      ensures nav.Some? ==> nav.value == EntryPage(Member(Read(o, "data"), "id")) && error == old(error)
      ensures Succeeded(o) && Read(o, "data") == JNull ==> error == JStr(SavePrefix + NoDataId)
      ensures Readable(o) && !Succeeded(o) ==> error == Or(Read(o, "message"), UpdateFailed)
      ensures !Readable(o) ==> error == JStr(SavePrefix + ThrownMessage(o))
    {
      sent := PayloadCorrected(title, initialContent, content);
      nav := Save(sent, o);
    }

    /**
     * `handleDelete` (lines 72-93): nothing happens unless the user
     * confirms; a success opens the journal list, otherwise an error shows.
     */
    method HandleDelete(confirmed: bool, o: Outcome) returns (nav: Option<Route>)
      modifies this
      ensures !confirmed ==> unchanged(this) && nav == None
      ensures confirmed ==> !loading
      ensures title == old(title) && content == old(content) && initialContent == old(initialContent)
      ensures isSaving == old(isSaving)
      ensures nav.Some? <==> confirmed && Succeeded(o)
      ensures nav.Some? ==> nav.value == JournalsPage && error == old(error)
      ensures confirmed && Readable(o) && !Succeeded(o) ==> error == Or(Read(o, "message"), DeleteFailed)
      ensures confirmed && !Readable(o) ==> error == JStr(DeleteNetworkError)
    {
      nav := None;
      if !confirmed {
        return;
      }
      loading := true;
      if !Readable(o) {
        error := JStr(DeleteNetworkError);
      } else if JsTruthy(Read(o, "success")) {
        nav := Some(JournalsPage);
      } else {
        error := Or(Read(o, "message"), DeleteFailed);
      }
      loading := false;
    }
  }
}
