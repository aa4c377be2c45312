/** The processing step of the video lifecycle: ask the inference model for
    the emotions of one video, store one prediction row per returned label,
    and mark the video processed. The model is an oracle: a function from the
    video's storage locator to a `{label: score}` dict. */
module AiService {
  import opened Common
  import opened Records
  import opened PyDict
  import opened Database

  /** The labels the inference model draws from. */
  const MODEL_LABELS: seq<string> := ["happy", "sad", "angry", "stressed", "neutral", "excited", "calm", "frustrated"]
  /** How many labels the inference model returns per video. */
  const MODEL_TOP_K: nat := 3

  /** What `EmotionModel` promises for any locator: three distinct labels
      from its list, each with a score in [0, 1]. */
  predicate OracleContract(d: Dict) {
    |d| == MODEL_TOP_K && UniqueKeys(d) &&
    forall j :: 0 <= j < |d| ==> d[j].0 in MODEL_LABELS && 0.0 <= d[j].1 <= 1.0
  }

  /** `compute_derived_fields`: nothing for an empty dict; otherwise the key
      `max(d, key=d.get)` picks (the first key with the largest score in
      iteration order) and that key's own score. */
  function ComputeDerivedFields(d: Dict): (r: (Option<string>, Option<real>))
    ensures |d| == 0 <==> r == (None, None)
    ensures |d| > 0 ==> r.0.Some? && r.1.Some?
    ensures |d| > 0 ==> exists i :: (0 <= i < |d| && d[i] == (r.0.value, r.1.value) &&
      forall j :: 0 <= j < i ==> d[j].1 < d[i].1)
    ensures |d| > 0 ==> forall j :: 0 <= j < |d| ==> d[j].1 <= r.1.value
    ensures r.0.Some? && UniqueKeys(d) ==> Get(d, r.0.value) == r.1
  {
    match MaxItem(d)
    case None => (None, None)
    case Some(item) =>
      var i :| 0 <= i < |d| && d[i] == item && forall j :: 0 <= j < i ==> d[j].1 < d[i].1;
      GetAt(d, i);
      (Some(item.0), Some(item.1))
  }

  /** In a dict with distinct keys, the value at a key's position is what `get` returns. */
  lemma GetAt(d: Dict, i: nat)
    requires i < |d|
    ensures UniqueKeys(d) ==> Get(d, d[i].0) == Some(d[i].1)
  {
    if UniqueKeys(d) {
      IndexOfAt(d, d[i].0, i);
    }
  }

  /** The rows stored for one answer of the model: one per item, in
      iteration order, for `videoId`, stamped with the day they are stored. */
  function Batch(videoId: nat, items: Dict, day: int): (r: seq<Prediction>)
    ensures |r| == |items|
    ensures forall j :: 0 <= j < |items| ==> r[j] == Prediction(videoId, items[j].0, items[j].1, day)
  {
    seq(|items|, j requires 0 <= j < |items| => Prediction(videoId, items[j].0, items[j].1, day))
  }

  /** The two tables the processing step changes. */
  datatype Tables = Tables(videos: seq<Video>, predictions: seq<Prediction>)

  /** The tables after `process_video_with_ai(videoId)` on `day`. */
  function Process(t: Tables, videoId: nat, infer: string -> Dict, day: int): Tables {
    match VideoIndex(t.videos, videoId)
    case None => t
    case Some(i) =>
      Tables(t.videos[i := t.videos[i].(isProcessed := true)],
             t.predictions + Batch(videoId, infer(t.videos[i].url), day))
  }

  /** Two video rows that agree on everything but the processed flag. */
  predicate SameVideo(a: Video, b: Video) {
    a.id == b.id && a.owner == b.owner && a.url == b.url && a.uploadTime == b.uploadTime
  }

  /** Processing a stored video appends the model's answer for its locator
      after the existing rows, which stay as they were; it sets the flag of
      that video and no other, and changes no other column. */
  lemma ProcessKnown(t: Tables, v: Video, infer: string -> Dict, day: int)
    requires DistinctVideoIds(t.videos) && v in t.videos
    ensures Process(t, v.id, infer, day).predictions == t.predictions + Batch(v.id, infer(v.url), day)
    ensures |Process(t, v.id, infer, day).videos| == |t.videos|
    ensures DistinctVideoIds(Process(t, v.id, infer, day).videos)
    ensures forall j :: 0 <= j < |t.videos| ==>
      SameVideo(Process(t, v.id, infer, day).videos[j], t.videos[j]) &&
      (Process(t, v.id, infer, day).videos[j].isProcessed <==> t.videos[j].isProcessed || t.videos[j].id == v.id)
  {
    var i := VideoIndex(t.videos, v.id).value;
    var k :| 0 <= k < |t.videos| && t.videos[k] == v;
    assert i == k;
  }

  /** Processing any id keeps the shape of the tables, flags exactly the
      videos with that id, and only appends rows for that id; an id no video
      has changes nothing. */
  lemma ProcessFlags(t: Tables, videoId: nat, infer: string -> Dict, day: int)
    requires DistinctVideoIds(t.videos)
    ensures |Process(t, videoId, infer, day).videos| == |t.videos|
    ensures DistinctVideoIds(Process(t, videoId, infer, day).videos)
    ensures forall j :: 0 <= j < |t.videos| ==>
      SameVideo(Process(t, videoId, infer, day).videos[j], t.videos[j]) &&
      (Process(t, videoId, infer, day).videos[j].isProcessed <==> t.videos[j].isProcessed || t.videos[j].id == videoId)
    ensures exists rows :: (Process(t, videoId, infer, day).predictions == t.predictions + rows &&
      forall p :: p in rows ==> p.videoId == videoId)
    ensures (forall v :: v in t.videos ==> v.id != videoId) ==> Process(t, videoId, infer, day) == t
  {
    match VideoIndex(t.videos, videoId)
    case None =>
      assert Process(t, videoId, infer, day).predictions == t.predictions + [];
    case Some(i) =>
      ProcessKnown(t, t.videos[i], infer, day);
  }

  /** Nothing guards against a second run: processing a video twice, with
      whatever the model answers each time (`first`, then `second`), stores
      both answers. */
  lemma ProcessTwice(t: Tables, v: Video, first: string -> Dict, second: string -> Dict, day: int)
    requires DistinctVideoIds(t.videos) && v in t.videos
    ensures Process(Process(t, v.id, first, day), v.id, second, day).predictions ==
      t.predictions + Batch(v.id, first(v.url), day) + Batch(v.id, second(v.url), day)
  {
    var once := Process(t, v.id, first, day);
    ProcessKnown(t, v, first, day);
    var k :| 0 <= k < |t.videos| && t.videos[k] == v;
    assert once.videos[k] in once.videos;
    ProcessKnown(once, once.videos[k], second, day);
  }

  /** Under the model's contract a processed video gains exactly three rows,
      with distinct labels from the model's list and scores in [0, 1]. */
  lemma ProcessStoresThreeLabels(t: Tables, v: Video, infer: string -> Dict, day: int)
    requires DistinctVideoIds(t.videos) && v in t.videos
    requires OracleContract(infer(v.url))
    ensures var rows := Process(t, v.id, infer, day).predictions[|t.predictions|..];
      |rows| == MODEL_TOP_K &&
      (forall j :: 0 <= j < |rows| ==> rows[j].videoId == v.id && rows[j].emotionLabel in MODEL_LABELS && 0.0 <= rows[j].score <= 1.0) &&
      (forall i, j :: 0 <= i < j < |rows| ==> rows[i].emotionLabel != rows[j].emotionLabel)
  {
    ProcessKnown(t, v, infer, day);
    var rows := Process(t, v.id, infer, day).predictions[|t.predictions|..];
    assert rows == Batch(v.id, infer(v.url), day);
  }

  /** `process_video_with_ai`: look the video up by id and return when it is
      missing; otherwise ask the model about its locator, add one row per
      returned item, and set its processed flag. The derived fields are
      computed and then dropped, as in the service. */
  method ProcessVideoWithAi(store: Store, videoId: nat, infer: string -> Dict, today: int)
    requires store.Valid()
    modifies store
    ensures store.Valid()
    ensures Tables(store.videos, store.predictions) ==
      Process(Tables(old(store.videos), old(store.predictions)), videoId, infer, today)
    ensures store.users == old(store.users) && store.companies == old(store.companies)
    ensures store.nextUserId == old(store.nextUserId) && store.nextCompanyId == old(store.nextCompanyId)
  {
    var found := VideoIndex(store.videos, videoId);
    if found.None? {
      return;
    }
    var i := found.value;
    ghost var t := Tables(store.videos, store.predictions);
    ProcessKnown(t, store.videos[i], infer, today);
    var items := infer(store.videos[i].url);
    var _ := ComputeDerivedFields(items);
    var k := 0;
    while k < |items|
      invariant 0 <= k <= |items|
      invariant store.predictions == old(store.predictions) + Batch(videoId, items, today)[..k]
      invariant store.videos == old(store.videos)
      invariant store.users == old(store.users) && store.companies == old(store.companies)
      invariant store.nextUserId == old(store.nextUserId) && store.nextCompanyId == old(store.nextCompanyId)
    {
      assert Batch(videoId, items, today)[..k + 1] == Batch(videoId, items, today)[..k] + [Prediction(videoId, items[k].0, items[k].1, today)];
      store.predictions := store.predictions + [Prediction(videoId, items[k].0, items[k].1, today)];
      k := k + 1;
    }
    assert Batch(videoId, items, today)[..k] == Batch(videoId, items, today);
    store.videos := store.videos[i := store.videos[i].(isProcessed := true)];
  }
}
