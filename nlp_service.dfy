/**
 * nlp_model/app/emotion/services.py: the older `EmotionService.analyze`.
 * It checks only the body and the presence of 'text', then forwards
 * `data.get('data')` as the text and the options unchecked. Its
 * `model_info` and `emotion_label_info` are the ones of
 * `DetectionService.ModelInfo` and `DetectionService.LabelInfo`.
 */
module NlpService {
  import opened Wrappers
  import opened JsonValue
  import opened AppErrors
  import opened EmotionDetectionModel

  const BodyRequired := "JSON body is required."
  const TextRequired := "Journal text is required."

  /** The checks and defaults of `analyze` (lines 9-18) and the arguments it passes to `predict`. */
  function Validate(data: Body): (r: Result<PredictCall, Fault>)
    ensures NoBody(data) ==> r == Failure(Raise(BadRequestError, BodyRequired))
    ensures !NoBody(data) && MissingOrFalsy(data.value, "text") ==> r == Failure(Raise(BadRequestError, TextRequired))
    ensures r.Success? <==> !NoBody(data) && !MissingOrFalsy(data.value, "text")
    ensures r.Success? ==>
      && r.value.text == Get(data.value, "data")
      && r.value.threshold == GetOr(data.value, "threshold", JReal(DefaultThreshold))
      && r.value.topK == Get(data.value, "top_k")
      && r.value.strategy == GetOr(data.value, "strategy", JStr("average"))
  {
    if NoBody(data) then Failure(Raise(BadRequestError, BodyRequired))
    else
      var m := data.value;
      if MissingOrFalsy(m, "text") then Failure(Raise(BadRequestError, TextRequired))
      else
        Success(PredictCall(Get(m, "data"), GetOr(m, "threshold", JReal(DefaultThreshold)),
                            Get(m, "top_k"), GetOr(m, "strategy", JStr("average"))))
  }

  /**
   * The checked key and the forwarded key differ: a request carrying only a
   * 'text' hands `predict` None as its text.
   */
  lemma TextNeverForwarded(m: map<string, Json>)
    requires "text" in m && PyTruthy(m["text"]) && "data" !in m
    ensures Validate(Some(m)).Success?
    ensures Validate(Some(m)).value.text == JNull
  {
  }

  /**
   * Unlike the newer service, a whitespace-only text passes the check, and
   * any threshold, top_k and strategy are forwarded as given.
   */
  lemma OptionsUnchecked(m: map<string, Json>, threshold: Json, topK: Json, strategy: Json)
    requires "text" in m && m["text"] == JStr(" ")
    ensures var call := Validate(Some(m["threshold" := threshold]["top_k" := topK]["strategy" := strategy]));
      call.Success? && call.value.threshold == threshold && call.value.topK == topK && call.value.strategy == strategy
  {
    var m' := m["threshold" := threshold]["top_k" := topK]["strategy" := strategy];
    assert m'["text"] == JStr(" ");
  }

  /** `analyze`: the checks, then `predict` on the forwarded arguments. */
  method Analyze(ed: EmotionDetection, data: Body, checkpoint: Checkpoint, cudaAvailable: bool,
                 tokenize: Json -> Result<seq<Token>, Fault>, infer: Json -> seq<real>)
    returns (r: Result<seq<Record>, Fault>)
    requires ed.Valid()
    modifies ed
    ensures Validate(data).Failure? ==> r == Failure(Validate(data).error) && unchanged(ed)
    ensures Validate(data).Success? ==> ed.Valid() && ed.model.Some?
    ensures Validate(data).Success? ==>
      var c := Validate(data).value;
      && (tokenize(c.text).Failure? ==> r == Failure(tokenize(c.text).error))
      && (tokenize(c.text).Success? && |tokenize(c.text).value| <= ChunkSize ==>
            r == Formatted(infer(c.text), c.threshold, c.topK, ed.emotionLabels.value))
      && (tokenize(c.text).Success? && |tokenize(c.text).value| > ChunkSize ==> r == Failure(Crash(TypeError)))
  {
    match Validate(data)
    case Failure(f) =>
      r := Failure(f);
    case Success(c) =>
      r := Predict(ed, c.text, c.threshold, c.topK, c.strategy, checkpoint, cudaAvailable, tokenize, infer);
  }
}
