/** The periodic sweep: select every unprocessed video, of any user, and run
    the processing step on each in turn. */
module Scheduler {
  import opened Records
  import opened PyDict
  import opened Database
  import opened AiService

  /** `query(Video).filter(Video.is_processed == False).all()` */
  function PendingAll(videos: seq<Video>): (r: seq<Video>)
    ensures |r| <= |videos|
    ensures forall v :: v in r <==> v in videos && !v.isProcessed
  {
    if videos == [] then []
    else
      var last := videos[|videos| - 1];
      PendingAll(videos[..|videos| - 1]) + (if !last.isProcessed then [last] else [])
  }

  /** The tables after processing `ids` one after the other. */
  function ProcessEach(t: Tables, ids: seq<nat>, infer: string -> Dict, day: int): Tables {
    if ids == [] then t
    else Process(ProcessEach(t, ids[..|ids| - 1], infer, day), ids[|ids| - 1], infer, day)
  }

  /** Processing a list of ids keeps the shape of the video table and
      flags exactly the videos whose id is listed (or that were flagged). */
  lemma {:induction false} ProcessEachFlags(t: Tables, ids: seq<nat>, infer: string -> Dict, day: int)
    requires DistinctVideoIds(t.videos)
    ensures |ProcessEach(t, ids, infer, day).videos| == |t.videos|
    ensures DistinctVideoIds(ProcessEach(t, ids, infer, day).videos)
    ensures forall j :: 0 <= j < |t.videos| ==>
      SameVideo(ProcessEach(t, ids, infer, day).videos[j], t.videos[j]) &&
      (ProcessEach(t, ids, infer, day).videos[j].isProcessed <==> t.videos[j].isProcessed || t.videos[j].id in ids)
    decreases |ids|
  {
    if ids != [] {
      var init := ids[..|ids| - 1];
      var last := ids[|ids| - 1];
      var mid := ProcessEach(t, init, infer, day);
      var after := ProcessEach(t, ids, infer, day);
      ProcessEachFlags(t, init, infer, day);
      ProcessFlags(mid, last, infer, day);
      forall j | 0 <= j < |t.videos|
        ensures after.videos[j].isProcessed <==> t.videos[j].isProcessed || t.videos[j].id in ids
      {
        assert t.videos[j].id in ids <==> t.videos[j].id in init || t.videos[j].id == last by {
          assert ids == init + [last];
        }
      }
    }
  }

  /** Processing a list of ids only appends rows, each for a listed id. */
  lemma {:induction false} ProcessEachRows(t: Tables, ids: seq<nat>, infer: string -> Dict, day: int)
    requires DistinctVideoIds(t.videos)
    ensures exists rows :: (ProcessEach(t, ids, infer, day).predictions == t.predictions + rows &&
      forall p :: p in rows ==> p.videoId in ids)
    decreases |ids|
  {
    if ids == [] {
      assert t.predictions == t.predictions + [];
    } else {
      var init := ids[..|ids| - 1];
      var last := ids[|ids| - 1];
      var mid := ProcessEach(t, init, infer, day);
      ProcessEachRows(t, init, infer, day);
      ProcessEachFlags(t, init, infer, day);
      ProcessFlags(mid, last, infer, day);
      var rows1 :| mid.predictions == t.predictions + rows1 && forall p :: p in rows1 ==> p.videoId in init;
      var rows2 :| ProcessEach(t, ids, infer, day).predictions == mid.predictions + rows2 &&
        forall p :: p in rows2 ==> p.videoId == last;
      assert ids == init + [last];
      assert ProcessEach(t, ids, infer, day).predictions == t.predictions + (rows1 + rows2);
    }
  }

  /** `auto_process_pending_videos`: the unprocessed videos at the start,
      then the processing step once per selected video, in selection order.
      With none selected the store is not touched. */
  method AutoProcessPendingVideos(store: Store, infer: string -> Dict, today: int)
    requires store.Valid()
    modifies store
    ensures store.Valid()
    ensures Tables(store.videos, store.predictions) ==
      ProcessEach(Tables(old(store.videos), old(store.predictions)), Ids(PendingAll(old(store.videos))), infer, today)
    ensures store.users == old(store.users) && store.companies == old(store.companies)
    ensures store.nextUserId == old(store.nextUserId) && store.nextCompanyId == old(store.nextCompanyId)
  {
    var pending := PendingAll(store.videos);
    if pending == [] {
      return;
    }
    ghost var t := Tables(store.videos, store.predictions);
    ghost var ids := Ids(pending);
    var i := 0;
    while i < |pending|
      invariant 0 <= i <= |pending|
      invariant store.Valid()
      invariant Tables(store.videos, store.predictions) == ProcessEach(t, ids[..i], infer, today)
      invariant store.users == old(store.users) && store.companies == old(store.companies)
      invariant store.nextUserId == old(store.nextUserId) && store.nextCompanyId == old(store.nextCompanyId)
    {
      assert ids[..i + 1][..i] == ids[..i];
      ProcessVideoWithAi(store, pending[i].id, infer, today);
      i := i + 1;
    }
    assert ids[..i] == ids;
  }

  /** After a sweep no video is left unprocessed. */
  lemma SweepLeavesNonePending(t: Tables, infer: string -> Dict, day: int)
    requires DistinctVideoIds(t.videos)
    ensures forall v :: v in ProcessEach(t, Ids(PendingAll(t.videos)), infer, day).videos ==> v.isProcessed
  {
    var ids := Ids(PendingAll(t.videos));
    var after := ProcessEach(t, ids, infer, day);
    ProcessEachFlags(t, ids, infer, day);
    forall v | v in after.videos ensures v.isProcessed {
      var j :| 0 <= j < |after.videos| && after.videos[j] == v;
      var w := t.videos[j];
      if !w.isProcessed {
        assert w in PendingAll(t.videos);
        var k :| 0 <= k < |PendingAll(t.videos)| && PendingAll(t.videos)[k] == w;
        assert ids[k] == w.id;
      }
    }
  }

  /** A video that was processed before a sweep gains no prediction rows. */
  lemma SweepSparesProcessed(t: Tables, v: Video, infer: string -> Dict, day: int)
    requires DistinctVideoIds(t.videos) && v in t.videos && v.isProcessed
    ensures PredictionsOf(ProcessEach(t, Ids(PendingAll(t.videos)), infer, day).predictions, v.id) ==
      PredictionsOf(t.predictions, v.id)
  {
    var ids := Ids(PendingAll(t.videos));
    ProcessEachRows(t, ids, infer, day);
    var rows :| ProcessEach(t, ids, infer, day).predictions == t.predictions + rows &&
      forall p :: p in rows ==> p.videoId in ids;
    forall p | p in rows ensures p.videoId != v.id {
      var k :| 0 <= k < |ids| && ids[k] == p.videoId;
      var w := PendingAll(t.videos)[k];
      assert w in PendingAll(t.videos);
      var a :| 0 <= a < |t.videos| && t.videos[a] == w;
      var b :| 0 <= b < |t.videos| && t.videos[b] == v;
    }
    PredictionsOfOthers(t.predictions, rows, v.id);
  }

  /** Rows of other videos do not change the rows of a video. */
  lemma {:induction false} PredictionsOfOthers(a: seq<Prediction>, b: seq<Prediction>, id: nat)
    requires forall p :: p in b ==> p.videoId != id
    ensures PredictionsOf(a + b, id) == PredictionsOf(a, id)
    decreases |b|
  {
    if b != [] {
      var init := b[..|b| - 1];
      assert (a + b)[..|a + b| - 1] == a + init;
      PredictionsOfOthers(a, init, id);
    } else {
      assert a + b == a;
    }
  }
}
