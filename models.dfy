/**
 * The ORM rows of backend/app/models.py as values: a user, a journal entry and
 * the emotions attached to an entry, with their `to_dict` projections.
 * A NOT NULL column is a plain field; a nullable one is an `Option`.
 */
module Models {
  import opened Wrappers
  import opened JsonValue
  import opened AppErrors
  import PyText

  /** A timezone-aware timestamp, known by its ISO-8601 text. */
  datatype Instant = Instant(iso: string)

  /**
   * A bcrypt digest. bcrypt is treated as an ideal hash: the digest of a
   * password verifies that password and no other.
   */
  datatype Digest = Bcrypt(secret: string)

  function GeneratePasswordHash(raw: string): Digest {
    Bcrypt(raw)
  }

  predicate CheckPasswordHash(d: Digest, raw: string) {
    d.secret == raw
  }

  datatype User = User(
    id: nat,
    firstName: string,
    lastName: string,
    email: string,
    passwordHash: Digest,
    createdAt: Instant,
    lastLogin: Option<Instant>)
  {
    /** Reading the `password` property: it is write-only. */
    function Password(): (r: Result<string, Fault>)
      ensures r.Failure? && r.error == Crash(AttributeError)
    {
      Failure(Crash(AttributeError))
    }

    /**
     * Assigning the `password` property: a falsy or blank value raises
     * ValueError (a non-string one fails on `.strip()`); otherwise only the
     * digest changes, and it is the digest of the raw, unstripped value.
     */
    function SetPassword(raw: Json): (r: Result<User, Fault>)
      ensures r.Success? <==> raw.JStr? && !PyText.AllSpace(raw.s)
      ensures r.Success? ==> r.value == this.(passwordHash := GeneratePasswordHash(raw.s))
      ensures r.Failure? && (!PyTruthy(raw) || raw.JStr?) ==> r.error == Crash(ValueError)
    {
      if !PyTruthy(raw) then Failure(Crash(ValueError))
      else if !raw.JStr? then Failure(Crash(AttributeError))
      else if PyText.Strip(raw.s) == [] then
        PyText.StripEmptyIffAllSpace(raw.s);
        Failure(Crash(ValueError))
      else
        PyText.StripEmptyIffAllSpace(raw.s);
        Success(this.(passwordHash := GeneratePasswordHash(raw.s)))
    }

    predicate CheckPassword(raw: string) {
      CheckPasswordHash(passwordHash, raw)
    }

    /** `User.to_dict()`: the four public columns, never the digest. */
    function ToDict(): (d: map<string, Json>)
      ensures d.Keys == {"id", "first_name", "last_name", "email"}
      ensures d["id"] == JInt(id) && d["email"] == JStr(email)
      ensures d["first_name"] == JStr(firstName) && d["last_name"] == JStr(lastName)
    {
      map["id" := JInt(id), "first_name" := JStr(firstName), "last_name" := JStr(lastName), "email" := JStr(email)]
    }
  }

  /** Whatever the setter stored, only the password that was set verifies against it. */
  lemma SetPasswordThenCheck(u: User, raw: string, attempt: string)
    requires !PyText.AllSpace(raw)
    ensures u.SetPassword(JStr(raw)).Success?
    ensures u.SetPassword(JStr(raw)).value.CheckPassword(attempt) <==> attempt == raw
  {
  }

  /**
   * An emotion row holds the key and the score the detector returned, as
   * whatever values they were; `to_dict()` hands them back unchanged.
   */
  datatype Emotion = Emotion(name: Json, confidence: Json)
  {
    /**
     * Both `emotion_name` and `confidence_score` are NOT NULL columns: a row
     * holding None in either is refused when the session commits.
     */
    predicate Storable() {
      name != JNull && confidence != JNull
    }

    /** `Emotion.to_dict()`. */
    function ToDict(): (d: map<string, Json>)
      ensures d.Keys == {"name", "confidence"}
      ensures d["name"] == name && d["confidence"] == confidence
    {
      map["name" := name, "confidence" := confidence]
    }
  }

  /** Every row of the list can be committed. */
  predicate AllStorable(es: seq<Emotion>) {
    forall i :: 0 <= i < |es| ==> es[i].Storable()
  }

  datatype JournalEntry = JournalEntry(
    id: nat,
    userId: nat,
    title: Option<string>,
    content: string,
    createdAt: Option<Instant>,
    emotions: seq<Emotion>)

  function OptionalText(t: Option<string>): Json {
    match t
    case None => JNull
    case Some(s) => JStr(s)
  }

  /** The emotions of an entry as a JSON list, in relationship order. */
  function EmotionList(es: seq<Emotion>): (j: Json)
    ensures j.JArr? && |j.items| == |es|
    ensures forall i :: 0 <= i < |es| ==> j.items[i] == JObj(es[i].ToDict())
  {
    JArr(seq(|es|, i requires 0 <= i < |es| => JObj(es[i].ToDict())))
  }

  /** `JournalEntry.to_dict()`. */
  function EntryToDict(e: JournalEntry): (d: map<string, Json>)
    ensures d.Keys == {"id", "title", "content", "created_at", "emotions"}
    ensures d["id"] == JInt(e.id) && d["content"] == JStr(e.content)
    ensures d["title"] == (if e.title.Some? then JStr(e.title.value) else JNull)
    ensures d["created_at"] == (if e.createdAt.Some? then JStr(e.createdAt.value.iso) else JNull)
    ensures d["emotions"] == EmotionList(e.emotions)
  {
    map[
      "id" := JInt(e.id),
      "title" := OptionalText(e.title),
      "content" := JStr(e.content),
      "created_at" := if e.createdAt.Some? then JStr(e.createdAt.value.iso) else JNull,
      "emotions" := EmotionList(e.emotions)]
  }
}
