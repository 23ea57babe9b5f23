/**
 * backend/app/emotion_analysis/services.py: the backend's client of the
 * emotion-detection service. The HTTP call is a parameter: the decoded JSON
 * reply, or the exception `requests` raised, which the handler re-raises.
 * The result is the dict `{item['emotion']: item['score']}` as an ordered
 * list of (key, value) pairs, or `None` when the reply is neither a success
 * nor a 400 or 500 error.
 */
module EmotionAnalysis {
  import opened Wrappers
  import opened JsonValue
  import opened AppErrors
  import opened PyDict

  const DetectUrl := "http://127.0.0.1:5001/api/v1/emotion_detect/"
  const RequestThreshold := 0.01
  const RequestTopK := 28
  const RequestStrategy := "average"

  /** The JSON body posted for `text` (lines 10-17). */
  function RequestBody(text: string): (b: map<string, Json>)
    ensures b.Keys == {"text", "threshold", "top_k", "strategy"}
    ensures b["text"] == JStr(text)
    ensures b["threshold"] == JReal(RequestThreshold) && b["top_k"] == JInt(RequestTopK)
    ensures b["strategy"] == JStr(RequestStrategy)
  {
    map["text" := JStr(text), "threshold" := JReal(RequestThreshold), "top_k" := JInt(RequestTopK),
        "strategy" := JStr(RequestStrategy)]
  }

  /** One comprehension step: `item.get('emotion')` and `item.get('score')`, then hashing the key. */
  function Item(item: Json): (r: Result<(Json, Json), Fault>)
    ensures r.Success? <==> item.JObj? && Hashable(Get(item.fields, "emotion"))
    ensures r.Success? ==> r.value == (Get(item.fields, "emotion"), Get(item.fields, "score"))
    ensures !item.JObj? ==> r == Failure(Crash(AttributeError))
  {
    if !item.JObj? then Failure(Crash(AttributeError))
    else
      var k := Get(item.fields, "emotion");
      if !Hashable(k) then Failure(Crash(TypeError))
      else Success((k, Get(item.fields, "score")))
  }

  /** The dict comprehension of lines 23-25, item by item from the left; the first bad item raises. */
  function Collect(items: seq<Json>): (r: Result<Pairs, Fault>)
    ensures r.Success? ==> DistinctKeys(r.value) && |r.value| <= |items|
  {
    if items == [] then Success([])
    else
      match Collect(items[..|items| - 1])
      case Failure(f) => Failure(f)
      case Success(d) =>
        match Item(items[|items| - 1])
        case Failure(f) => Failure(f)
        case Success(kv) =>
          PutDistinct(d, kv.0, kv.1);
          PutKeys(d, kv.0, kv.1);
          Success(Put(d, kv.0, kv.1))
  }

  /** The score of the last item whose key equals `k`, if any. */
  function LastScore(items: seq<Json>, k: Json): Option<Json>
    requires forall i :: 0 <= i < |items| ==> Item(items[i]).Success?
  {
    if items == [] then None
    else
      var kv := Item(items[|items| - 1]).value;
      if KeyEq(kv.0, k) then Some(kv.1) else LastScore(items[..|items| - 1], k)
  }

  /** Collecting well-formed items succeeds, and a later duplicate key overwrites the earlier value. */
  lemma {:induction false} CollectLookup(items: seq<Json>, k: Json)
    requires forall i :: 0 <= i < |items| ==> Item(items[i]).Success?
    ensures Collect(items).Success?
    ensures Lookup(Collect(items).value, k) == LastScore(items, k)
  {
    if items != [] {
      var init := items[..|items| - 1];
      assert forall i :: 0 <= i < |init| ==> Item(init[i]).Success? by {
        forall i | 0 <= i < |init| ensures Item(init[i]).Success? {
          assert init[i] == items[i];
        }
      }
      CollectLookup(init, k);
      var kv := Item(items[|items| - 1]).value;
      PutLookup(Collect(init).value, kv.0, kv.1, k);
    }
  }

  /** A key repeated later keeps the place of its first occurrence. */
  lemma {:induction false} CollectKeysGrow(items: seq<Json>, more: Json)
    requires Collect(items + [more]).Success?
    ensures Collect(items).Success?
    ensures var before := Keys(Collect(items).value);
      Keys(Collect(items + [more]).value) == before
      || Keys(Collect(items + [more]).value) == before + [Item(more).value.0]
  {
    assert (items + [more])[..|items|] == items;
    var d := Collect(items).value;
    var kv := Item(more).value;
    PutKeys(d, kv.0, kv.1);
  }

  /** How `for emotion in data` iterates over each kind of value. */
  function Elements(data: Json): (r: Result<seq<Json>, Fault>)
    ensures data.JArr? ==> r == Success(data.items)
    ensures data.JNull? || data.JInt? || data.JReal? || data.JBool? ==> r == Failure(Crash(TypeError))
  {
    match data
    case JArr(items) => Success(items)
    // A string yields its one-character strings; a dict yields its keys, which are strings.
    case JStr(s) => Success(seq(|s|, i requires 0 <= i < |s| => JStr([s[i]])))
    case JObj(fields) => if fields == map[] then Success([]) else Failure(Crash(AttributeError))
    case _ => Failure(Crash(TypeError))
  }

  /**
   * `emotion_detection(text)` given the outcome of the HTTP call: the reply
   * `reply` or the exception it raised.
   */
  function Detect(reply: Result<Json, Fault>): (r: Result<Option<Pairs>, Fault>)
    ensures r.Success? && r.value.Some? ==> DistinctKeys(r.value.value)
    ensures r.Success? && r.value.Some? ==> reply.Success? && reply.value.JObj? && PyTruthy(Get(reply.value.fields, "success"))
    ensures r.Success? && r.value.None? ==> reply.Success? && reply.value.JObj? && !PyTruthy(Get(reply.value.fields, "success"))
  {
    match reply
    case Failure(f) => Failure(f)
    case Success(resp) =>
      if !resp.JObj? then Failure(Crash(AttributeError))
      else if PyTruthy(Get(resp.fields, "success")) then
        match Elements(Get(resp.fields, "data"))
        case Failure(f) => Failure(f)
        case Success(items) =>
          match Collect(items)
          case Failure(f) => Failure(f)
          case Success(d) => Success(Some(d))
      else if PyEqualsInt(Get(resp.fields, "status_code"), 400) then
        Failure(App(NewError(BadRequestError, Get(resp.fields, "message"), JNull, JNull, JNull)))
      // A bare `raise` with no exception being handled raises RuntimeError.
      else if PyEqualsInt(Get(resp.fields, "status_code"), 500) then Failure(Crash(RuntimeError))
      else Success(None)
  }

  /** A successful reply carrying a list of well-formed items gives the dict of their last scores. */
  lemma SuccessGivesScores(fields: map<string, Json>, items: seq<Json>, k: Json)
    requires PyTruthy(Get(fields, "success")) && Get(fields, "data") == JArr(items)
    requires forall i :: 0 <= i < |items| ==> Item(items[i]).Success?
    ensures Detect(Success(JObj(fields))).Success?
    ensures Detect(Success(JObj(fields))).value.Some?
    ensures Lookup(Detect(Success(JObj(fields))).value.value, k) == LastScore(items, k)
  {
    CollectLookup(items, k);
  }

  /** An empty list of emotions gives an empty dict. */
  lemma EmptyListGivesEmptyDict(fields: map<string, Json>)
    requires PyTruthy(Get(fields, "success")) && Get(fields, "data") == JArr([])
    ensures Detect(Success(JObj(fields))) == Success(Some([]))
  {
  }

  /** Items without the two keys become the single pair None: None. */
  lemma MissingKeysGiveNone(fields: map<string, Json>, items: seq<Json>)
    requires PyTruthy(Get(fields, "success")) && Get(fields, "data") == JArr(items) && items != []
    requires forall i :: 0 <= i < |items| ==> items[i].JObj? && "emotion" !in items[i].fields && "score" !in items[i].fields
    ensures Detect(Success(JObj(fields))) == Success(Some([(JNull, JNull)]))
  {
    forall i | 0 <= i < |items| ensures Item(items[i]) == Success((JNull, JNull)) {
    }
    MissingKeysCollect(items);
  }

  lemma {:induction false} MissingKeysCollect(items: seq<Json>)
    requires items != []
    requires forall i :: 0 <= i < |items| ==> Item(items[i]) == Success((JNull, JNull))
    ensures Collect(items) == Success([(JNull, JNull)])
  {
    if |items| > 1 {
      var init := items[..|items| - 1];
      assert forall i :: 0 <= i < |init| ==> Item(init[i]) == Success((JNull, JNull)) by {
        forall i | 0 <= i < |init| ensures Item(init[i]) == Success((JNull, JNull)) {
          assert init[i] == items[i];
        }
      }
      MissingKeysCollect(init);
      assert Item(items[|items| - 1]) == Success((JNull, JNull));
      var one: Pairs := [(JNull, JNull)];
      assert KeyEq(JNull, JNull);
      assert Put(one, JNull, JNull) == [(JNull, JNull)] + one[1..];
      assert one[1..] == [];
      assert Put(one, JNull, JNull) == one;
      assert Collect(items) == Success(Put(one, JNull, JNull));
    } else {
      assert items[..|items| - 1] == [];
      assert Item(items[0]) == Success((JNull, JNull));
      assert Collect(items) == Success(Put([], JNull, JNull));
    }
  }

  /** An unsuccessful reply with status 400 raises BadRequestError carrying the server's message. */
  lemma Status400(fields: map<string, Json>)
    requires !PyTruthy(Get(fields, "success")) && PyEqualsInt(Get(fields, "status_code"), 400)
    ensures var r := Detect(Success(JObj(fields)));
      && r.Failure? && r.error.App? && r.error.error.cls == BadRequestError
      && r.error.error.statusCode == JInt(400)
      && (PyTruthy(Get(fields, "message")) ==> r.error.error.message == Get(fields, "message"))
      && (!PyTruthy(Get(fields, "message")) ==> r.error.error.message == JStr(DefaultMessage(BadRequestError)))
  {
  }

  /** Any other unsuccessful reply returns None, and status 500 raises. */
  lemma OtherStatus(fields: map<string, Json>)
    requires !PyTruthy(Get(fields, "success"))
    ensures PyEqualsInt(Get(fields, "status_code"), 500) ==> Detect(Success(JObj(fields))) == Failure(Crash(RuntimeError))
    ensures !PyEqualsInt(Get(fields, "status_code"), 400) && !PyEqualsInt(Get(fields, "status_code"), 500) ==>
      Detect(Success(JObj(fields))) == Success(None)
  {
  }

  /** An exception from the HTTP call or from decoding the reply is re-raised unchanged. */
  lemma TransportErrorReraised(f: Fault)
    ensures Detect(Failure(f)) == Failure(f)
  {
  }
}
