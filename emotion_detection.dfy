/**
 * nlp_model/app/emotion/emotion_detection.py: the `EmotionDetection` class.
 * Its class attributes are the fields of one object. Loading a checkpoint,
 * tokenising, decoding, the network's forward pass and the mean/max
 * aggregation are parameters: the model keeps the control flow, the window
 * arithmetic, the labelling, thresholding, ranking and cutting of results.
 */
module EmotionDetectionModel {
  import opened Wrappers
  import opened JsonValue
  import opened AppErrors
  import opened Ranking

  const MaxLength := 512
  const ChunkOverlap := 50
  const DefaultThreshold := 0.3
  /** `max_length - 2`: room for the two special tokens. */
  const ChunkSize := MaxLength - 2
  /** How far each window starts after the previous one. */
  const Stride := ChunkSize - ChunkOverlap

  type Token = int

  /** What `from_pretrained` loads: the labels of `model.config.id2label`, in order. */
  datatype Checkpoint = Checkpoint(labels: seq<string>)

  datatype Device = Cpu | Cuda

  /** One entry of the result list: `{'emotion', 'score', 'detected'}`. */
  datatype Record = Record(emotion: string, score: real, detected: bool)

  /** The keyword arguments of `predict(text, threshold, top_k, strategy)`. */
  datatype PredictCall = PredictCall(text: Json, threshold: Json, topK: Json, strategy: Json)

  function Min(a: int, b: int): int {
    if a <= b then a else b
  }

  /** Where window `i` starts. */
  function Start(i: nat): nat {
    i * Stride
  }

  /** Where window `i` ends in a text of `n` tokens. */
  function End(i: nat, n: nat): nat {
    Min(Start(i) + ChunkSize, n)
  }

  /**
   * `m` windows are what the loop of lines 60-71 produces for `n` tokens:
   * none for no tokens, otherwise the last window is the first one to reach
   * the end.
   */
  predicate Windowed(n: nat, m: nat) {
    && (n == 0 <==> m == 0)
    && (m > 0 ==> Start(m - 1) + ChunkSize >= n)
    && (m > 1 ==> Start(m - 2) + ChunkSize < n)
  }

  /** Every token index lies in some window. */
  lemma WindowsCover(n: nat, m: nat, k: nat)
    requires Windowed(n, m) && k < n
    ensures exists i :: 0 <= i < m && Start(i) <= k < End(i, n)
  {
    var i := k / Stride;
    if i >= m {
      i := m - 1;
    }
    assert Start(i) <= k < End(i, n);
  }

  /** Consecutive windows share exactly `chunk_overlap` tokens. */
  lemma WindowsOverlap(n: nat, m: nat, i: nat)
    requires Windowed(n, m) && i + 1 < m
    ensures End(i, n) - Start(i + 1) == ChunkOverlap
  {
    assert Start(i) <= Start(m - 2);
  }

  /** The number of windows is fixed by the number of tokens. */
  lemma WindowCount(n: nat, m: nat)
    requires Windowed(n, m)
    ensures m == if n == 0 then 0 else if n <= ChunkSize then 1 else (n - ChunkSize + Stride - 1) / Stride + 1
  {
  }

  /** `results[:k]` with Python's reading of a negative bound. */
  function SliceTo<T>(s: seq<T>, k: int): (r: seq<T>)
    ensures k >= 0 ==> r == s[..Min(k, |s|)]
    ensures k < 0 ==> r == s[..if |s| + k > 0 then |s| + k else 0]
  {
    if k >= 0 then s[..Min(k, |s|)]
    else if |s| + k > 0 then s[..|s| + k] else []
  }

  /** `results[:top_k] if top_k else results`: a falsy `top_k` keeps everything; a non-integer cannot slice. */
  function CutTopK<T>(s: seq<T>, topK: Json): (r: Result<seq<T>, Fault>)
    ensures !PyTruthy(topK) ==> r == Success(s)
    ensures PyTruthy(topK) && IsPyInt(topK) ==> r == Success(SliceTo(s, PyIntValue(topK)))
    ensures PyTruthy(topK) && !IsPyInt(topK) ==> r == Failure(Crash(TypeError))
  {
    if !PyTruthy(topK) then Success(s)
    else if IsPyInt(topK) then Success(SliceTo(s, PyIntValue(topK)))
    else Failure(Crash(TypeError))
  }

  /** A positive `top_k` keeps the best `top_k` records, or all of them when there are fewer. */
  lemma TopKKeepsBest(s: seq<Record>, k: int)
    requires k > 0
    ensures CutTopK(s, JInt(k)) == Success(s[..Min(k, |s|)])
  {
  }

  /** `round(prob * 100, 2)`, without the rounding. */
  function Percent(p: real): real {
    p * 100.0
  }

  function ScoreOf(r: Record): real {
    r.score
  }

  /** The records the loop of lines 90-97 builds, one per label in label order. */
  function Records(labels: seq<string>, probs: seq<real>, threshold: real): (rs: seq<Record>)
    requires |probs| >= |labels|
    ensures |rs| == |labels|
    ensures forall i :: 0 <= i < |labels| ==>
      rs[i].emotion == labels[i] && rs[i].score == Percent(probs[i]) && (rs[i].detected <==> probs[i] >= threshold)
  {
    seq(|labels|, i requires 0 <= i < |labels| => Record(labels[i], Percent(probs[i]), probs[i] >= threshold))
  }

  class EmotionDetection {
    var model: Option<Checkpoint>
    var device: Option<Device>
    var emotionLabels: Option<seq<string>>

    /** Either nothing is loaded, or the model, its device and its labels all are. */
    ghost predicate Valid()
      reads this
    {
      && (model.None? <==> emotionLabels.None?)
      && (model.None? <==> device.None?)
      && (model.Some? ==> emotionLabels == Some(model.value.labels))
    }

    constructor ()
      ensures Valid() && model == None && device == None && emotionLabels == None
    {
      model := None;
      device := None;
      emotionLabels := None;
    }

    /** `load_model`: loads once; once a model is set, later calls change nothing. */
    method LoadModel(checkpoint: Checkpoint, cudaAvailable: bool)
      requires Valid()
      modifies this
      ensures Valid() && model.Some?
      ensures old(model).Some? ==> model == old(model) && device == old(device) && emotionLabels == old(emotionLabels)
      ensures old(model).None? ==>
        && model == Some(checkpoint)
        && device == Some(if cudaAvailable then Cuda else Cpu)
        && emotionLabels == Some(checkpoint.labels)
    {
      if model.Some? {
        return;
      }
      model := Some(checkpoint);
      device := Some(if cudaAvailable then Cuda else Cpu);
      emotionLabels := Some(checkpoint.labels);
    }
  }

  /**
   * The window loop of `_predict_with_chunking` (lines 56-71): the token
   * windows, in order, each decoded back to text.
   */
  method ChunkTexts(tokens: seq<Token>, decode: seq<Token> -> string) returns (chunks: seq<string>)
    ensures Windowed(|tokens|, |chunks|)
    ensures forall i :: 0 <= i < |chunks| ==> chunks[i] == decode(tokens[Start(i)..End(i, |tokens|)])
  {
    var n := |tokens|;
    chunks := [];
    var start := 0;
    while start < n
      invariant start == Start(|chunks|)
      invariant forall i :: 0 <= i < |chunks| ==> Start(i) + ChunkSize < n
      invariant forall i :: 0 <= i < |chunks| ==> chunks[i] == decode(tokens[Start(i)..End(i, n)])
      invariant n == 0 ==> chunks == []
      invariant chunks != [] ==> start < n
      decreases n - start
    {
      var end := Min(start + ChunkSize, n);
      chunks := chunks + [decode(tokens[start..end])];
      if end >= n {
        break;
      }
      start := start + Stride;
    }
  }

  /**
   * `_predict_with_chunking(tokens, strategy)`: the windows' texts, one
   * probability vector per window, and the strategy check, which runs after
   * every window has been scored.
   */
  method PredictWithChunking(tokens: seq<Token>, strategy: Json, decode: seq<Token> -> string,
                             infer: Json -> seq<real>, reduce: (string, seq<seq<real>>) -> seq<real>)
    returns (r: Result<seq<real>, Fault>, chunks: seq<string>)
    ensures Windowed(|tokens|, |chunks|)
    ensures forall i :: 0 <= i < |chunks| ==> chunks[i] == decode(tokens[Start(i)..End(i, |tokens|)])
    ensures strategy != JStr("average") && strategy != JStr("max") ==> r == Failure(Crash(ValueError))
    ensures strategy == JStr("average") || strategy == JStr("max") ==>
      r == Success(reduce(strategy.s, seq(|chunks|, i requires 0 <= i < |chunks| => infer(JStr(chunks[i])))))
  {
    chunks := ChunkTexts(tokens, decode);
    var probabilities: seq<seq<real>> := [];
    for i := 0 to |chunks|
      invariant probabilities == seq(i, j requires 0 <= j < i => infer(JStr(chunks[j])))
    {
      probabilities := probabilities + [infer(JStr(chunks[i]))];
    }
    if strategy == JStr("average") {
      r := Success(reduce("average", probabilities));
    } else if strategy == JStr("max") {
      r := Success(reduce("max", probabilities));
    } else {
      r := Failure(Crash(ValueError));
    }
  }

  /**
   * What `_format_results` (lines 88-100) returns: one record per label, then
   * a stable sort by score, highest first, then the `top_k` cut. Reading a
   * missing probability raises IndexError, and comparing it with a threshold
   * that is not a number raises TypeError; with no labels neither happens.
   */
  function Formatted(probs: seq<real>, threshold: Json, topK: Json, labels: seq<string>): (r: Result<seq<Record>, Fault>)
    ensures |labels| > 0 && |probs| == 0 ==> r == Failure(Crash(IndexError))
    ensures |labels| > 0 && |probs| > 0 && !IsPyNumber(threshold) ==> r == Failure(Crash(TypeError))
    ensures |labels| > 0 && 0 < |probs| < |labels| && IsPyNumber(threshold) ==> r == Failure(Crash(IndexError))
    ensures r.Success? ==> |r.value| <= |labels|
    ensures r.Failure? ==> r.error == Crash(IndexError) || r.error == Crash(TypeError)
  {
    if |labels| == 0 then CutTopK([], topK)
    else if |probs| == 0 then Failure(Crash(IndexError))
    else if !IsPyNumber(threshold) then Failure(Crash(TypeError))
    else if |probs| < |labels| then Failure(Crash(IndexError))
    else CutTopK(SortDesc(Records(labels, probs, PyNumber(threshold)), ScoreOf), topK)
  }

  /** The loop of `_format_results`, then the sort and the cut. */
  method FormatResults(probs: seq<real>, threshold: Json, topK: Json, labels: seq<string>)
    returns (r: Result<seq<Record>, Fault>)
    ensures r == Formatted(probs, threshold, topK, labels)
  {
    var results: seq<Record> := [];
    for i := 0 to |labels|
      invariant i <= |probs| ==> results == Records(labels[..i], probs[..i], if IsPyNumber(threshold) then PyNumber(threshold) else 0.0)
      invariant i > 0 ==> i <= |probs| && IsPyNumber(threshold)
    {
      if i >= |probs| {
        return Failure(Crash(IndexError));
      }
      var prob := probs[i];
      if !IsPyNumber(threshold) {
        return Failure(Crash(TypeError));
      }
      results := results + [Record(labels[i], Percent(prob), prob >= PyNumber(threshold))];
    }
    if |labels| > 0 {
      assert labels[..|labels|] == labels;
      assert Records(labels, probs[..|labels|], PyNumber(threshold)) == Records(labels, probs, PyNumber(threshold));
    }
    results := SortDesc(results, ScoreOf);
    r := CutTopK(results, topK);
  }

  /**
   * The formatted results are ordered by score, hold one record per label
   * (before the cut) and keep label order among equal scores.
   */
  lemma FormattedRanking(labels: seq<string>, probs: seq<real>, threshold: real, k: real)
    requires |probs| >= |labels|
    ensures var sorted := SortDesc(Records(labels, probs, threshold), ScoreOf);
      && SortedDesc(sorted, ScoreOf)
      && multiset(sorted) == multiset(Records(labels, probs, threshold))
      && WithKey(sorted, ScoreOf, k) == WithKey(Records(labels, probs, threshold), ScoreOf, k)
  {
    var rs := Records(labels, probs, threshold);
    SortSorted(rs, ScoreOf);
    SortPermutes(rs, ScoreOf);
    SortStable(rs, ScoreOf, k);
  }

  /**
   * `predict` as written (lines 103-115). The long-text path calls
   * `_predict_with_chunking(tokens, threshold, strategy)`, three arguments
   * for a function of two, so it always raises TypeError.
   */
  method Predict(ed: EmotionDetection, text: Json, threshold: Json, topK: Json, strategy: Json,
                 checkpoint: Checkpoint, cudaAvailable: bool,
                 tokenize: Json -> Result<seq<Token>, Fault>, infer: Json -> seq<real>)
    returns (r: Result<seq<Record>, Fault>)
    requires ed.Valid()
    modifies ed
    ensures ed.Valid() && ed.model.Some?
    ensures tokenize(text).Failure? ==> r == Failure(tokenize(text).error)
    ensures tokenize(text).Success? && |tokenize(text).value| <= ChunkSize ==>
      r == Formatted(infer(text), threshold, topK, ed.emotionLabels.value)
    ensures tokenize(text).Success? && |tokenize(text).value| > ChunkSize ==> r == Failure(Crash(TypeError))
  {
    ed.LoadModel(checkpoint, cudaAvailable);
    var encoded := tokenize(text);
    if encoded.Failure? {
      return Failure(encoded.error);
    }
    if |encoded.value| <= ChunkSize {
      var probabilities := infer(text);
      r := FormatResults(probabilities, threshold, topK, ed.emotionLabels.value);
    } else {
      // `_predict_with_chunking` takes two parameters and is given three.
      r := Failure(Crash(TypeError));
    }
  }

  /**
   * `predict` with the long-text call given the two arguments the helper
   * takes: a long text is scored window by window instead of raising;
   * `chunks` are the decoded windows it scored (none for a short text).
   */
  method PredictCorrected(ed: EmotionDetection, text: Json, threshold: Json, topK: Json, strategy: Json,
                          checkpoint: Checkpoint, cudaAvailable: bool,
                          tokenize: Json -> Result<seq<Token>, Fault>, decode: seq<Token> -> string,
                          infer: Json -> seq<real>, reduce: (string, seq<seq<real>>) -> seq<real>)
    returns (r: Result<seq<Record>, Fault>, chunks: seq<string>)
    requires ed.Valid()
    modifies ed
    ensures ed.Valid() && ed.model.Some?
    ensures tokenize(text).Failure? ==> r == Failure(tokenize(text).error)
    ensures tokenize(text).Success? && |tokenize(text).value| > ChunkSize ==>
      (r.Failure? && r.error == Crash(ValueError) <==> strategy != JStr("average") && strategy != JStr("max"))
    ensures tokenize(text).Success? && |tokenize(text).value| <= ChunkSize ==>
      r == Formatted(infer(text), threshold, topK, ed.emotionLabels.value)
    ensures tokenize(text).Failure? || |tokenize(text).value| <= ChunkSize ==> chunks == []
    ensures tokenize(text).Success? && |tokenize(text).value| > ChunkSize ==>
      && Windowed(|tokenize(text).value|, |chunks|)
      && (forall i :: 0 <= i < |chunks| ==>
            chunks[i] == decode(tokenize(text).value[Start(i)..End(i, |tokenize(text).value|)]))
    ensures tokenize(text).Success? && |tokenize(text).value| > ChunkSize &&
            (strategy == JStr("average") || strategy == JStr("max")) ==>
      r == Formatted(reduce(strategy.s, seq(|chunks|, i requires 0 <= i < |chunks| => infer(JStr(chunks[i])))),
                     threshold, topK, ed.emotionLabels.value)
  {
    chunks := [];
    ed.LoadModel(checkpoint, cudaAvailable);
    var encoded := tokenize(text);
    if encoded.Failure? {
      return Failure(encoded.error), chunks;
    }
    var labels := ed.emotionLabels.value;
    if |encoded.value| <= ChunkSize {
      var probabilities := infer(text);
      r := FormatResults(probabilities, threshold, topK, labels);
    } else {
      var reduced;
      reduced, chunks := PredictWithChunking(encoded.value, strategy, decode, infer, reduce);
      if reduced.Failure? {
        return Failure(reduced.error), chunks;
      }
      r := FormatResults(reduced.value, threshold, topK, labels);
    }
  }
}
