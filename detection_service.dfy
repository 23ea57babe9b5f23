/**
 * emotion_detection_service/app/emotion/services.py: `EmotionService`, the
 * request handling in front of the `EmotionDetection` class. `Validate` is the
 * chain of guard checks and defaults of `analyze` (lines 9-27); `Analyze` adds
 * the call to `predict`; `ModelInfo` and `LabelInfo` report the loaded labels.
 */
module DetectionService {
  import opened Wrappers
  import opened JsonValue
  import opened AppErrors
  import PyText
  import opened Ranking
  import opened EmotionDetectionModel

  const BodyRequired := "JSON body is required."
  const TextRequired := "Journal text is required."
  const TextNotString := "Text must be a string, got "
  const ThresholdRange := "Threshold must be between 0 and 1"
  const StrategyChoice := "Strategy must be \"average\" or \"max\""
  const TopKPositive := "top_k must be a positive integer"

  /** `isinstance(threshold, (int, float)) and 0 <= threshold <= 1` */
  predicate ThresholdOk(v: Json) {
    IsPyNumber(v) && 0.0 <= PyNumber(v) <= 1.0
  }

  /** `strategy in ("average", "max")` */
  predicate StrategyOk(v: Json) {
    v == JStr("average") || v == JStr("max")
  }

  /** `top_k is None or (isinstance(top_k, int) and top_k > 0)` */
  predicate TopKOk(v: Json) {
    v.JNull? || (IsPyInt(v) && PyIntValue(v) > 0)
  }

  /** `str(type(v))` */
  function TypeName(v: Json): string {
    match v
    case JNull => "<class 'NoneType'>"
    case JBool(_) => "<class 'bool'>"
    case JInt(_) => "<class 'int'>"
    case JReal(_) => "<class 'float'>"
    case JStr(_) => "<class 'str'>"
    case JArr(_) => "<class 'list'>"
    case JObj(_) => "<class 'dict'>"
  }

  /** The fault is an application error whose message begins with `prefix`. */
  predicate MessageStartsWith(f: Fault, prefix: string) {
    f.App? && f.error.message.JStr? && prefix <= f.error.message.s
  }

  /**
   * The checks of `analyze` in source order, and the arguments it passes to
   * `predict`: the stripped text and the three options with their defaults.
   */
  function Validate(data: Body): (r: Result<PredictCall, Fault>)
    ensures NoBody(data) ==> r == Failure(Raise(BadRequestError, BodyRequired))
    ensures r.Success? ==>
      && data.Some? && "text" in data.value && data.value["text"].JStr?
      && r.value.text == JStr(PyText.Strip(data.value["text"].s)) && r.value.text.s != []
      && ThresholdOk(r.value.threshold) && StrategyOk(r.value.strategy) && TopKOk(r.value.topK)
    ensures r.Failure? ==> r.error == Crash(AttributeError) || r.error.App?
  {
    if NoBody(data) then Failure(Raise(BadRequestError, BodyRequired))
    else
      var m := data.value;
      if "text" !in m then Failure(Raise(BadRequestError, TextRequired))
      else
        match StripValue(m["text"])
        case Failure(f) => Failure(f)
        case Success(stripped) =>
          if stripped == [] then Failure(Raise(BadRequestError, TextRequired))
          else
            var text := JStr(stripped);
            var threshold := GetOr(m, "threshold", JReal(DefaultThreshold));
            var topK := Get(m, "top_k");
            var strategy := GetOr(m, "strategy", JStr("average"));
            // `text` is what `str.strip` returned, so this check cannot fail.
            if !text.JStr? then Failure(Raise(BadRequestError, TextNotString + TypeName(text)))
            else if !ThresholdOk(threshold) then Failure(Raise(BadRequestError, ThresholdRange))
            else if !StrategyOk(strategy) then Failure(Raise(BadRequestError, StrategyChoice))
            else if !TopKOk(topK) then Failure(Raise(BadRequestError, TopKPositive))
            else Success(PredictCall(text, threshold, topK, strategy))
  }

  /**
   * 'Journal text is required.' answers exactly a missing text and a text
   * that strips to nothing; a text that is not a string has no `strip`.
   */
  lemma TextRequiredWhen(m: map<string, Json>)
    requires m != map[]
    ensures Validate(Some(m)).Failure? && IsError(Validate(Some(m)).error, BadRequestError, TextRequired) <==>
      "text" !in m || (m["text"].JStr? && PyText.Strip(m["text"].s) == [])
    ensures "text" in m && !m["text"].JStr? ==> Validate(Some(m)) == Failure(Crash(AttributeError))
  {
    RaiseCarriesMessage(BadRequestError, TextRequired);
    if "text" in m && m["text"].JStr? && PyText.Strip(m["text"].s) != [] {
      var r := Validate(Some(m));
      if r.Failure? {
        assert r.error.error.message != JStr(TextRequired) by {
          RaiseCarriesMessage(BadRequestError, ThresholdRange);
          RaiseCarriesMessage(BadRequestError, StrategyChoice);
          RaiseCarriesMessage(BadRequestError, TopKPositive);
          assert ThresholdRange[0] != TextRequired[0];
          assert StrategyChoice[0] != TextRequired[0];
          assert TopKPositive[0] != TextRequired[0];
        }
      }
    }
  }

  /**
   * Once the text is present, the options are checked in the order
   * threshold, strategy, top_k, and the first failing check decides the
   * message; when all pass, `predict` gets the stripped text and the options.
   */
  lemma CheckOrder(m: map<string, Json>)
    requires "text" in m && m["text"].JStr? && PyText.Strip(m["text"].s) != []
    ensures var threshold := GetOr(m, "threshold", JReal(DefaultThreshold));
      var strategy := GetOr(m, "strategy", JStr("average"));
      var topK := Get(m, "top_k");
      && (!ThresholdOk(threshold) ==> Validate(Some(m)) == Failure(Raise(BadRequestError, ThresholdRange)))
      && (ThresholdOk(threshold) && !StrategyOk(strategy) ==>
            Validate(Some(m)) == Failure(Raise(BadRequestError, StrategyChoice)))
      && (ThresholdOk(threshold) && StrategyOk(strategy) && !TopKOk(topK) ==>
            Validate(Some(m)) == Failure(Raise(BadRequestError, TopKPositive)))
      && (ThresholdOk(threshold) && StrategyOk(strategy) && TopKOk(topK) ==>
            Validate(Some(m)) == Success(PredictCall(JStr(PyText.Strip(m["text"].s)), threshold, topK, strategy)))
  {
  }

  /** With no options given, threshold is 0.3, top_k is None and strategy is "average". */
  lemma Defaults(m: map<string, Json>)
    requires "text" in m && m["text"].JStr? && PyText.Strip(m["text"].s) != []
    requires "threshold" !in m && "top_k" !in m && "strategy" !in m
    ensures Validate(Some(m)) == Success(PredictCall(JStr(PyText.Strip(m["text"].s)), JReal(0.3), JNull, JStr("average")))
  {
  }

  /** An explicit `null` is not a missing option: a null threshold is refused. */
  lemma NullThresholdRefused(m: map<string, Json>)
    requires "text" in m && m["text"].JStr? && PyText.Strip(m["text"].s) != []
    requires "threshold" in m && m["threshold"] == JNull
    ensures Validate(Some(m)) == Failure(Raise(BadRequestError, ThresholdRange))
  {
  }

  /** The `isinstance(text, str)` check never rejects a request. */
  lemma TypeCheckNeverFires(data: Body)
    ensures Validate(data).Failure? ==> !MessageStartsWith(Validate(data).error, TextNotString)
  {
    var r := Validate(data);
    if r.Failure? && r.error.App? {
      var msg := r.error.error.message;
      assert msg in {JStr(BodyRequired), JStr(TextRequired), JStr(ThresholdRange), JStr(StrategyChoice), JStr(TopKPositive)};
      assert BodyRequired[0] != TextNotString[0];
      assert TextRequired[0] != TextNotString[0];
      assert ThresholdRange[1] != TextNotString[1];
      assert StrategyChoice[0] != TextNotString[0];
      assert TopKPositive[0] != TextNotString[0];
    }
  }

  /**
   * Arguments that passed validation never make `_format_results` fail: the
   * threshold is a number and `top_k` is None or positive, so the result is
   * every label's record, ranked, and cut to `top_k` when one is given.
   */
  lemma ValidCallFormats(data: Body, probs: seq<real>, labels: seq<string>)
    requires Validate(data).Success? && |probs| >= |labels|
    ensures var c := Validate(data).value;
      var ranked := SortDesc(Records(labels, probs, PyNumber(c.threshold)), ScoreOf);
      && (c.topK.JNull? ==> Formatted(probs, c.threshold, c.topK, labels) == Success(ranked))
      && (!c.topK.JNull? ==>
            Formatted(probs, c.threshold, c.topK, labels) == Success(ranked[..Min(PyIntValue(c.topK), |ranked|)]))
  {
    var c := Validate(data).value;
    if labels == [] {
      assert Records(labels, probs, PyNumber(c.threshold)) == [];
    }
  }

  /**
   * `analyze`: the checks, then `predict` on the validated arguments. A
   * refused request leaves the detector untouched.
   */
  method Analyze(ed: EmotionDetection, data: Body, checkpoint: Checkpoint, cudaAvailable: bool,
                 tokenize: Json -> Result<seq<Token>, Fault>, infer: Json -> seq<real>)
    returns (r: Result<seq<Record>, Fault>)
    requires ed.Valid()
    modifies ed
    ensures Validate(data).Failure? ==> r == Failure(Validate(data).error) && unchanged(ed)
    ensures Validate(data).Success? ==> ed.Valid() && ed.model.Some?
    ensures Validate(data).Success? ==>
      var c := Validate(data).value;
      && (tokenize(c.text).Failure? ==> r == Failure(tokenize(c.text).error))
      && (tokenize(c.text).Success? && |tokenize(c.text).value| <= ChunkSize ==>
            r == Formatted(infer(c.text), c.threshold, c.topK, ed.emotionLabels.value))
      && (tokenize(c.text).Success? && |tokenize(c.text).value| > ChunkSize ==> r == Failure(Crash(TypeError)))
  {
    match Validate(data)
    case Failure(f) =>
      r := Failure(f);
    case Success(c) =>
      r := Predict(ed, c.text, c.threshold, c.topK, c.strategy, checkpoint, cudaAvailable, tokenize, infer);
  }

  /** `str(EmotionDetection.device)`: None before the model is loaded. */
  function DeviceName(d: Option<Device>): string {
    match d
    case None => "None"
    case Some(Cpu) => "cpu"
    case Some(Cuda) => "cuda"
  }

  /** The label list as JSON. */
  function LabelList(labels: seq<string>): (j: Json)
    ensures j.JArr? && |j.items| == |labels|
    ensures forall i :: 0 <= i < |labels| ==> j.items[i] == JStr(labels[i])
  {
    JArr(seq(|labels|, i requires 0 <= i < |labels| => JStr(labels[i])))
  }

  /**
   * `model_info()`: the service's health report. `len(None)` raises
   * TypeError before a model has been loaded.
   */
  function ModelInfo(ed: EmotionDetection): (r: Result<map<string, Json>, Fault>)
    reads ed
    ensures r.Success? <==> ed.emotionLabels.Some?
    ensures r.Failure? ==> r.error == Crash(TypeError)
    ensures r.Success? ==>
      && r.value.Keys == {"status", "model", "device", "max_length", "num_emotions", "emotions"}
      && r.value["status"] == JStr("healthy") && r.value["model"] == JStr("DistilBERT-GoEmotions")
      && r.value["device"] == JStr(DeviceName(ed.device)) && r.value["max_length"] == JInt(MaxLength)
      && r.value["emotions"].JArr? && r.value["num_emotions"] == JInt(|r.value["emotions"].items|)
      && r.value["emotions"] == LabelList(ed.emotionLabels.value)
  {
    match ed.emotionLabels
    case None => Failure(Crash(TypeError))
    case Some(labels) =>
      Success(map[
        "status" := JStr("healthy"),
        "model" := JStr("DistilBERT-GoEmotions"),
        "device" := JStr(DeviceName(ed.device)),
        "max_length" := JInt(MaxLength),
        "num_emotions" := JInt(|labels|),
        "emotions" := LabelList(labels)])
  }

  /** `emotion_label_info()`: the labels, their count and the fixed options. */
  function LabelInfo(ed: EmotionDetection): (r: Result<map<string, Json>, Fault>)
    reads ed
    ensures r.Success? <==> ed.emotionLabels.Some?
    ensures r.Failure? ==> r.error == Crash(TypeError)
    ensures r.Success? ==>
      && r.value.Keys == {"emotions", "count", "default_threshold", "max_text_length", "strategies"}
      && r.value["emotions"] == LabelList(ed.emotionLabels.value)
      && r.value["count"] == JInt(|r.value["emotions"].items|)
      && r.value["default_threshold"] == JReal(DefaultThreshold)
      && r.value["max_text_length"] == JStr("unlimited (automatic chunking)")
      && r.value["strategies"] == JArr([JStr("average"), JStr("max")])
  {
    match ed.emotionLabels
    case None => Failure(Crash(TypeError))
    case Some(labels) =>
      Success(map[
        "emotions" := LabelList(labels),
        "count" := JInt(|labels|),
        "default_threshold" := JReal(DefaultThreshold),
        "max_text_length" := JStr("unlimited (automatic chunking)"),
        "strategies" := JArr([JStr("average"), JStr("max")])])
  }

  /**
   * The two reports agree: the same labels, and `num_emotions` equals
   * `count`; every strategy they advertise passes validation.
   */
  lemma ReportsAgree(ed: EmotionDetection)
    requires ed.emotionLabels.Some?
    ensures ModelInfo(ed).value["num_emotions"] == LabelInfo(ed).value["count"] == JInt(|ed.emotionLabels.value|)
    ensures ModelInfo(ed).value["emotions"] == LabelInfo(ed).value["emotions"]
    ensures forall i :: 0 <= i < |LabelInfo(ed).value["strategies"].items| ==>
      StrategyOk(LabelInfo(ed).value["strategies"].items[i])
  {
  }
}
