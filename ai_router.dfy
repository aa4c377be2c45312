/** The video-processing endpoints: trigger processing of one of the caller's
    videos, read a video's predictions, and queue every pending video of the
    caller. Processing itself runs later, from the task queue. */
module AiRouter {
  import opened Common
  import opened Records
  import opened PyDict
  import opened Database
  import opened AiService

  const VIDEO_NOT_FOUND: HttpError := HttpError(404, "Video not found")
  const ALREADY_PROCESSED: HttpError := HttpError(400, "Video already processed")
  const STARTED: string := "Video processing started"
  const PROCESSING: string := "processing"

  /** `query(Video).filter(Video.video_id == id, Video.user_id == owner).first()` */
  function OwnedVideo(videos: seq<Video>, id: nat, owner: nat): (r: Option<Video>)
    ensures r.Some? ==> r.value in videos && r.value.id == id && r.value.owner == owner
    ensures r.None? <==> forall v :: v in videos ==> !(v.id == id && v.owner == owner)
  {
    if videos == [] then None
    else if videos[0].id == id && videos[0].owner == owner then Some(videos[0])
    else OwnedVideo(videos[1..], id, owner)
  }

  /** With distinct video ids, the caller's video with an id is the stored
      video with that id, when the caller owns it. */
  lemma OwnedVideoIsTheVideo(videos: seq<Video>, v: Video)
    requires DistinctVideoIds(videos) && v in videos
    ensures OwnedVideo(videos, v.id, v.owner) == Some(v)
  {
    var w := OwnedVideo(videos, v.id, v.owner).value;
    var i :| 0 <= i < |videos| && videos[i] == v;
    var j :| 0 <= j < |videos| && videos[j] == w;
    assert i == j;
  }

  /** The response of the trigger endpoint. */
  datatype TriggerResponse = TriggerResponse(message: string, videoId: nat, status: string)

  /** `trigger_video_processing`: 404 unless the caller owns a video with that
      id, 400 when it is already processed, otherwise one task for the video
      is queued. The store is only read. */
  method TriggerVideoProcessing(store: Store, queue: TaskQueue, videoId: nat, caller: User)
    returns (r: Result<TriggerResponse>)
    modifies queue
    ensures OwnedVideo(store.videos, videoId, caller.id).None? <==> r == Err(VIDEO_NOT_FOUND)
    ensures OwnedVideo(store.videos, videoId, caller.id).Some? ==>
      (OwnedVideo(store.videos, videoId, caller.id).value.isProcessed <==> r == Err(ALREADY_PROCESSED))
    ensures r.Err? ==> r == Err(VIDEO_NOT_FOUND) || r == Err(ALREADY_PROCESSED)
    ensures r.Ok? ==> r.value == TriggerResponse(STARTED, videoId, PROCESSING)
    ensures r.Ok? ==> queue.tasks == old(queue.tasks) + [videoId]
    ensures r.Err? ==> queue.tasks == old(queue.tasks)
  {
    var video := OwnedVideo(store.videos, videoId, caller.id);
    if video.None? {
      return Err(VIDEO_NOT_FOUND);
    }
    if video.value.isProcessed {
      return Err(ALREADY_PROCESSED);
    }
    queue.AddTask(videoId);
    return Ok(TriggerResponse(STARTED, videoId, PROCESSING));
  }

  /** The response of the predictions endpoint. */
  datatype PredictionsView = PredictionsView(
    videoId: nat,
    isProcessed: bool,
    predictions: Dict,
    topEmotion: Option<string>,
    topScore: Option<real>)

  /** `get_video_predictions`: 404 unless the caller owns the video; the
      video's rows folded into `{label: score}`, where a later row overwrites
      an earlier one with the same label and each label keeps the place of
      its first row, and the derived fields of that dict (nothing when the
      video has no rows). */
  function GetVideoPredictions(videos: seq<Video>, preds: seq<Prediction>, videoId: nat, caller: User)
    : (r: Result<PredictionsView>)
    ensures OwnedVideo(videos, videoId, caller.id).None? <==> r == Err(VIDEO_NOT_FOUND)
    ensures r.Err? ==> r == Err(VIDEO_NOT_FOUND)
    ensures r.Ok? ==> r.value.videoId == videoId
    ensures r.Ok? ==> r.value.isProcessed == OwnedVideo(videos, videoId, caller.id).value.isProcessed
    ensures r.Ok? ==> UniqueKeys(r.value.predictions)
    ensures r.Ok? ==> (r.value.predictions == [] <==> PredictionsOf(preds, videoId) == [])
    ensures r.Ok? ==> forall k :: Get(r.value.predictions, k) == LastValue(Items(PredictionsOf(preds, videoId)), k)
    ensures r.Ok? ==> FirstSeenOrder(r.value.predictions, Items(PredictionsOf(preds, videoId)))
    ensures r.Ok? ==> (r.value.topEmotion, r.value.topScore) == ComputeDerivedFields(r.value.predictions)
  {
    match OwnedVideo(videos, videoId, caller.id)
    case None => Err(VIDEO_NOT_FOUND)
    case Some(video) =>
      var rows := PredictionsOf(preds, videoId);
      if rows == [] then
        Ok(PredictionsView(videoId, video.isProcessed, [], None, None))
      else
        var items := Items(rows);
        var d := FromItems(items);
        forall k ensures Get(d, k) == LastValue(items, k) {
          FromItemsGet(items, k);
        }
        LastValueNone(items, items[0].0);
        FromItemsOrder(items);
        var top := ComputeDerivedFields(d);
        Ok(PredictionsView(videoId, video.isProcessed, d, top.0, top.1))
  }

  /** The caller's unprocessed videos, in store order. */
  function PendingOf(videos: seq<Video>, owner: nat): (r: seq<Video>)
    ensures |r| <= |videos|
    ensures forall v :: v in r <==> v in videos && v.owner == owner && !v.isProcessed
  {
    if videos == [] then []
    else
      var last := videos[|videos| - 1];
      PendingOf(videos[..|videos| - 1], owner) + (if last.owner == owner && !last.isProcessed then [last] else [])
  }

  /** The response of the bulk endpoint. */
  datatype PendingResponse =
    | NothingPending
    | Started(count: nat, videoIds: seq<nat>)

  /** `process_all_pending_videos`: nothing when the caller has no pending
      video; otherwise one task per pending video, in store order, and the
      count and ids of those videos. */
  method ProcessAllPending(store: Store, queue: TaskQueue, caller: User) returns (r: PendingResponse)
    modifies queue
    ensures PendingOf(store.videos, caller.id) == [] <==> r == NothingPending
    ensures r.Started? ==> r.count == |PendingOf(store.videos, caller.id)|
    ensures r.Started? ==> r.videoIds == Ids(PendingOf(store.videos, caller.id))
    ensures queue.tasks == old(queue.tasks) + Ids(PendingOf(store.videos, caller.id))
  {
    var pending := PendingOf(store.videos, caller.id);
    if pending == [] {
      assert Ids(pending) == [];
      return NothingPending;
    }
    var i := 0;
    while i < |pending|
      invariant 0 <= i <= |pending|
      invariant queue.tasks == old(queue.tasks) + Ids(pending)[..i]
    {
      assert Ids(pending)[..i + 1] == Ids(pending)[..i] + [pending[i].id];
      queue.AddTask(pending[i].id);
      i := i + 1;
    }
    assert Ids(pending)[..i] == Ids(pending);
    return Started(|pending|, Ids(pending));
  }

  /** The bulk endpoint queues a video iff the caller owns it and it is not
      processed, and queues each such video once. */
  lemma {:induction false} PendingOfOnce(videos: seq<Video>, owner: nat)
    requires DistinctVideoIds(videos)
    ensures forall i, j :: 0 <= i < j < |PendingOf(videos, owner)| ==>
      PendingOf(videos, owner)[i].id != PendingOf(videos, owner)[j].id
    decreases |videos|
  {
    if videos != [] {
      var init := videos[..|videos| - 1];
      var last := videos[|videos| - 1];
      PendingOfOnce(init, owner);
      var p := PendingOf(init, owner);
      forall v | v in p ensures v.id != last.id {
        var k :| 0 <= k < |init| && init[k] == v;
        assert videos[k] == v;
      }
      var r := PendingOf(videos, owner);
      forall i, j | 0 <= i < j < |r| ensures r[i].id != r[j].id {
        if j == |p| {
          assert r[i] == p[i];
        } else {
          assert r[i] == p[i] && r[j] == p[j];
        }
      }
    }
  }
}
