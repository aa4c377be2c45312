/** The dashboard-summary endpoint: video counts, active employees and the
    average stress score over the caller's company. */
module Summary {
  import opened Common
  import opened Records
  import opened Emotions
  import opened CompanyScope

  /** The response of `dashboard_summary`. */
  datatype DashboardSummary = DashboardSummary(
    totalVideos: nat,
    processedVideos: nat,
    activeEmployees: nat,
    avgStress: real)

  /** The processed videos among `vs`, in store order. */
  function Processed(vs: seq<Video>): (r: seq<Video>)
    ensures |r| <= |vs|
    ensures forall v :: v in r <==> v in vs && v.isProcessed
  {
    if vs == [] then []
    else
      var last := vs[|vs| - 1];
      Processed(vs[..|vs| - 1]) + (if last.isProcessed then [last] else [])
  }

  /** The distinct uploaders of `vs` (`query(Video.user_id).distinct()`). */
  function Owners(vs: seq<Video>): (r: set<nat>)
    ensures forall id :: id in r <==> exists v :: v in vs && v.owner == id
  {
    set v | v in vs :: v.owner
  }

  /** What the endpoint reports for the videos and prediction rows of a company. */
  function SummaryOf(ids: set<nat>, videos: seq<Video>, preds: seq<Prediction>): DashboardSummary {
    var vs := ScopedVideos(videos, ids);
    DashboardSummary(|vs|, |Processed(vs)|, |Owners(vs)|, Mean(ScoresFor(ScopedPredictions(videos, preds, ids), Stress)))
  }

  /** There are no more uploaders than videos. */
  lemma {:induction false} OwnersAtMostVideos(vs: seq<Video>)
    ensures |Owners(vs)| <= |vs|
    decreases |vs|
  {
    if vs != [] {
      var init := vs[..|vs| - 1];
      var last := vs[|vs| - 1];
      assert vs == init + [last];
      OwnersAtMostVideos(init);
      assert Owners(vs) == Owners(init) + {last.owner};
    }
  }

  /** Somebody uploaded iff there is a video. */
  lemma OwnersEmpty(vs: seq<Video>)
    ensures |Owners(vs)| == 0 <==> |vs| == 0
  {
    if vs != [] {
      assert vs[0].owner in Owners(vs);
    }
  }

  /** The counts of a summary are consistent: processed videos and active
      employees are at most the videos, the active employees are company
      users, there is an active employee iff there is a video; and when
      every score is in [0, 1], so is the average stress. */
  lemma SummaryBounds(ids: set<nat>, videos: seq<Video>, preds: seq<Prediction>)
    ensures SummaryOf(ids, videos, preds).processedVideos <= SummaryOf(ids, videos, preds).totalVideos
    ensures SummaryOf(ids, videos, preds).activeEmployees <= SummaryOf(ids, videos, preds).totalVideos
    ensures SummaryOf(ids, videos, preds).activeEmployees <= |ids|
    ensures SummaryOf(ids, videos, preds).activeEmployees == 0 <==> SummaryOf(ids, videos, preds).totalVideos == 0
    ensures (forall j :: 0 <= j < |preds| ==> 0.0 <= preds[j].score <= 1.0) ==>
      0.0 <= SummaryOf(ids, videos, preds).avgStress <= 1.0
  {
    var vs := ScopedVideos(videos, ids);
    OwnersAtMostVideos(vs);
    OwnersEmpty(vs);
    assert Owners(vs) <= ids;
    assert |Owners(vs)| <= |ids| by {
      SubsetCardinality(Owners(vs), ids);
    }
    if forall j :: 0 <= j < |preds| ==> 0.0 <= preds[j].score <= 1.0 {
      var rows := ScopedPredictions(videos, preds, ids);
      UnitRows(videos, preds, ids);
      StressScoresUnit(rows);
      MeanOfUnitScores(ScoresFor(rows, Stress));
    }
  }

  lemma SubsetCardinality(a: set<nat>, b: set<nat>)
    requires a <= b
    ensures |a| <= |b|
  {
    assert b == a + (b - a);
  }

  lemma UnitRows(videos: seq<Video>, preds: seq<Prediction>, ids: set<nat>)
    requires forall j :: 0 <= j < |preds| ==> 0.0 <= preds[j].score <= 1.0
    ensures forall j :: 0 <= j < |ScopedPredictions(videos, preds, ids)| ==>
      0.0 <= ScopedPredictions(videos, preds, ids)[j].score <= 1.0
  {
    var rows := ScopedPredictions(videos, preds, ids);
    forall j | 0 <= j < |rows| ensures 0.0 <= rows[j].score <= 1.0 {
      assert rows[j] in rows;
    }
  }

  lemma {:induction false} StressScoresUnit(rows: seq<Prediction>)
    requires forall j :: 0 <= j < |rows| ==> 0.0 <= rows[j].score <= 1.0
    ensures AllUnit(ScoresFor(rows, Stress))
    decreases |rows|
  {
    if rows != [] {
      StressScoresUnit(rows[..|rows| - 1]);
    }
  }

  /** `dashboard_summary`: the role check, then the counts and the mean of the
      scores of the company's rows whose label maps to stress (0 without any). */
  method Summarize(caller: User, users: seq<User>, videos: seq<Video>, preds: seq<Prediction>)
    returns (r: Result<DashboardSummary>)
    ensures caller.role != HR <==> r == Err(FORBIDDEN)
    ensures caller.role == HR ==>
      r == Ok(SummaryOf(CompanyUserIds(users, caller.companyId), videos, preds))
  {
    var forbidden := AssertHr(caller);
    if forbidden.Some? {
      return Err(forbidden.value);
    }
    var ids := CompanyUserIds(users, caller.companyId);
    var vs := ScopedVideos(videos, ids);
    var stress := CollectScores(ScopedPredictions(videos, preds, ids), Stress);
    var avg := if |stress| > 0 then Sum(stress) / (|stress| as real) else 0.0;
    return Ok(DashboardSummary(|vs|, |Processed(vs)|, |Owners(vs)|, avg));
  }
}
