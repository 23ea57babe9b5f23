/**
 * backend/app/emotion_detect/emotion_model_run.py: `analyze_emotions`. The
 * text is cut into 3000-character slices, each slice is scored by the
 * network (a parameter here, as is the averaging of the score vectors), and
 * the averaged scores become a dict from label to percentage, ordered by
 * percentage, highest first.
 */
module EmotionModelRun {
  import opened Wrappers
  import opened JsonValue
  import opened AppErrors
  import opened PyDict
  import opened Ranking
  import opened EmotionDetectionModel

  /** `char_chunk_size` */
  const SliceLength := 3000

  /** `len(range(0, n, 3000))` */
  function SliceCount(n: nat): nat {
    (n + SliceLength - 1) / SliceLength
  }

  /** `[text[i:i + 3000] for i in range(0, len(text), 3000)]` */
  function Slices(text: string): (s: seq<string>)
    ensures |s| == SliceCount(|text|)
  {
    seq(SliceCount(|text|), k requires 0 <= k < SliceCount(|text|) =>
      text[k * SliceLength..Min((k + 1) * SliceLength, |text|)])
  }

  /** The strings of `ss` joined in order. */
  function Concat(ss: seq<string>): string {
    if ss == [] then [] else Concat(ss[..|ss| - 1]) + ss[|ss| - 1]
  }

  lemma {:induction false} SlicesPrefix(text: string, k: nat)
    requires k <= |Slices(text)|
    ensures Concat(Slices(text)[..k]) == text[..Min(k * SliceLength, |text|)]
  {
    if k > 0 {
      var s := Slices(text);
      SlicesPrefix(text, k - 1);
      assert s[..k][..k - 1] == s[..k - 1];
      var a := Min((k - 1) * SliceLength, |text|);
      var b := Min(k * SliceLength, |text|);
      assert a == (k - 1) * SliceLength;
      assert text[..a] + text[a..b] == text[..b];
    }
  }

  /** Joining the slices gives back the text. */
  lemma SlicesJoin(text: string)
    ensures Concat(Slices(text)) == text
  {
    var s := Slices(text);
    SlicesPrefix(text, |s|);
    assert s[..|s|] == s;
  }

  /** Every slice but the last is 3000 characters long; the last is not empty and no longer. */
  lemma SliceLengths(text: string)
    ensures var s := Slices(text);
      && (forall k :: 0 <= k < |s| - 1 ==> |s[k]| == SliceLength)
      && (|s| > 0 ==> 0 < |s[|s| - 1]| <= SliceLength)
  {
  }

  /** The number of slices is the length divided by 3000, rounded up; an empty text has none. */
  lemma SliceCountCeiling(text: string)
    ensures var c := |Slices(text)|;
      (c - 1) * SliceLength < |text| <= c * SliceLength || (c == 0 && text == [])
  {
  }

  /** The percentage a dict value holds. */
  function PairScore(p: (Json, Json)): real {
    if p.1.JReal? then p.1.r else 0.0
  }

  /**
   * `{id2label[i]: round(float(avg_probs[i] * 100), 2) for i in range(len(avg_probs))}`:
   * an index the model has no label for raises KeyError.
   */
  function Labelled(id2label: map<int, string>, avg: seq<real>): (r: Result<Pairs, Fault>)
    ensures r.Success? <==> forall i :: 0 <= i < |avg| ==> i in id2label
    ensures r.Failure? ==> r.error == Crash(KeyError)
    ensures r.Success? ==> DistinctKeys(r.value) && |r.value| <= |avg|
  {
    if avg == [] then Success([])
    else
      var i := |avg| - 1;
      match Labelled(id2label, avg[..i])
      case Failure(f) => Failure(f)
      case Success(d) =>
        if i !in id2label then Failure(Crash(KeyError))
        else
          PutDistinct(d, JStr(id2label[i]), JReal(Percent(avg[i])));
          PutKeys(d, JStr(id2label[i]), JReal(Percent(avg[i])));
          Success(Put(d, JStr(id2label[i]), JReal(Percent(avg[i]))))
  }

  /** With one distinct label per index, the dict holds label i with score i, in index order. */
  lemma {:induction false} LabelledDistinct(id2label: map<int, string>, avg: seq<real>)
    requires forall i :: 0 <= i < |avg| ==> i in id2label
    requires forall i, j :: 0 <= i < j < |avg| ==> id2label[i] != id2label[j]
    ensures Labelled(id2label, avg) == Success(Entries(id2label, avg))
  {
    if avg != [] {
      var last := |avg| - 1;
      var init := avg[..last];
      var k := JStr(id2label[last]);
      var v := JReal(Percent(avg[last]));
      LabelledDistinct(id2label, init);
      var d := Entries(id2label, init);
      assert Labelled(id2label, avg) == Success(Put(d, k, v));
      assert Lookup(d, k).None? by {
        forall j | 0 <= j < |d| ensures !KeyEq(d[j].0, k) {
          assert d[j].0 == JStr(id2label[j]);
        }
        LookupSome(d, k);
      }
      PutNew(d, k, v);
      forall j | 0 <= j < |avg| ensures (d + [(k, v)])[j] == Entries(id2label, avg)[j] {
        if j < last {
          assert init[j] == avg[j];
        }
      }
      assert d + [(k, v)] == Entries(id2label, avg);
    }
  }

  /** Label `i` paired with score `i`, for every index. */
  function Entries(id2label: map<int, string>, avg: seq<real>): (r: Pairs)
    requires forall i :: 0 <= i < |avg| ==> i in id2label
    ensures |r| == |avg|
    ensures forall i :: 0 <= i < |avg| ==> r[i] == (JStr(id2label[i]), JReal(Percent(avg[i])))
  {
    seq(|avg|, i requires 0 <= i < |avg| => (JStr(id2label[i]), JReal(Percent(avg[i]))))
  }

  /** What `analyze_emotions(text)` returns. */
  function Analyzed(text: string, infer: string -> seq<real>, mean: seq<seq<real>> -> seq<real>,
                    id2label: map<int, string>): (r: Result<Pairs, Fault>)
    ensures text == [] ==> r == Failure(Crash(ValueError))
    ensures r.Success? ==> SortedDesc(r.value, PairScore)
  {
    var chunks := Slices(text);
    if chunks == [] then Failure(Crash(ValueError))
    else
      match Labelled(id2label, mean(seq(|chunks|, i requires 0 <= i < |chunks| => infer(chunks[i]))))
      case Failure(f) => Failure(f)
      case Success(d) =>
        SortSorted(d, PairScore);
        Success(SortDesc(d, PairScore))
  }

  /**
   * The returned dict holds the labelled scores of the averaged vector, one
   * vector per slice, reordered by score, highest first, equal scores in
   * label order.
   */
  lemma AnalyzedRanked(text: string, infer: string -> seq<real>, mean: seq<seq<real>> -> seq<real>,
                       id2label: map<int, string>, k: real)
    requires text != []
    ensures var chunks := Slices(text);
      var labelled := Labelled(id2label, mean(seq(|chunks|, i requires 0 <= i < |chunks| => infer(chunks[i]))));
      && (Analyzed(text, infer, mean, id2label).Success? <==> labelled.Success?)
      && (labelled.Success? ==>
            && multiset(Analyzed(text, infer, mean, id2label).value) == multiset(labelled.value)
            && WithKey(Analyzed(text, infer, mean, id2label).value, PairScore, k) == WithKey(labelled.value, PairScore, k))
  {
    var chunks := Slices(text);
    var labelled := Labelled(id2label, mean(seq(|chunks|, i requires 0 <= i < |chunks| => infer(chunks[i]))));
    if labelled.Success? {
      SortPermutes(labelled.value, PairScore);
      SortStable(labelled.value, PairScore, k);
    }
  }

  /**
   * `analyze_emotions`: the slices, then the loop scoring one slice at a
   * time, then averaging, labelling and ranking. `np.stack` of no vectors
   * raises ValueError.
   */
  method AnalyzeEmotions(text: string, infer: string -> seq<real>, mean: seq<seq<real>> -> seq<real>,
                         id2label: map<int, string>)
    returns (r: Result<Pairs, Fault>)
    ensures r == Analyzed(text, infer, mean, id2label)
  {
    var chunks := Slices(text);
    var probsList: seq<seq<real>> := [];
    for i := 0 to |chunks|
      invariant probsList == seq(i, j requires 0 <= j < i => infer(chunks[j]))
    {
      probsList := probsList + [infer(chunks[i])];
    }
    if probsList == [] {
      return Failure(Crash(ValueError));
    }
    match Labelled(id2label, mean(probsList))
    case Failure(f) =>
      r := Failure(f);
    case Success(d) =>
      r := Success(SortDesc(d, PairScore));
  }
}
