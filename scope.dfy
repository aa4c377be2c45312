/** What every HR dashboard endpoint shares: the role guard, the company
    scoping of rows (company users, their videos, the predictions of those
    videos) and the sums and means the aggregates are made of. */
module CompanyScope {
  import opened Common
  import opened Records
  import opened Emotions

  const FORBIDDEN: HttpError := HttpError(403, "HR role required")

  /** `assert_hr`: the error raised for a caller whose role is not "hr". */
  function AssertHr(user: User): (r: Option<HttpError>)
    ensures r.None? <==> user.role == HR
    ensures r.Some? ==> r.value == FORBIDDEN
  {
    if user.role != HR then Some(FORBIDDEN) else None
  }

  /** `get_company_user_ids`: ids of the users whose company is `company`. */
  function CompanyUserIds(users: seq<User>, company: Option<nat>): (r: set<nat>)
    ensures forall id :: id in r <==> exists j :: 0 <= j < |users| && users[j].companyId == company && users[j].id == id
  {
    set j | 0 <= j < |users| && users[j].companyId == company :: users[j].id
  }

  /** The video a prediction belongs to is owned by one of `ids` (the join
      `Prediction.video_id == Video.video_id` filtered on `Video.user_id`). */
  predicate OwnedBy(videos: seq<Video>, p: Prediction, ids: set<nat>) {
    match VideoIndex(videos, p.videoId)
    case None => false
    case Some(i) => videos[i].owner in ids
  }

  /** The prediction rows of the videos owned by `ids`, in store order. */
  function ScopedPredictions(videos: seq<Video>, preds: seq<Prediction>, ids: set<nat>): (r: seq<Prediction>)
    ensures |r| <= |preds|
    ensures forall p :: p in r <==> p in preds && OwnedBy(videos, p, ids)
    ensures ids == {} ==> r == []
  {
    if preds == [] then []
    else
      var last := preds[|preds| - 1];
      ScopedPredictions(videos, preds[..|preds| - 1], ids) + (if OwnedBy(videos, last, ids) then [last] else [])
  }

  /** The videos owned by `ids`, in store order. */
  function ScopedVideos(videos: seq<Video>, ids: set<nat>): (r: seq<Video>)
    ensures |r| <= |videos|
    ensures forall v :: v in r <==> v in videos && v.owner in ids
  {
    if videos == [] then []
    else
      var last := videos[|videos| - 1];
      ScopedVideos(videos[..|videos| - 1], ids) + (if last.owner in ids then [last] else [])
  }

  /** The prediction rows the dashboard of `hr`'s company aggregates. */
  function CompanyPredictions(hr: User, users: seq<User>, videos: seq<Video>, preds: seq<Prediction>): seq<Prediction> {
    ScopedPredictions(videos, preds, CompanyUserIds(users, hr.companyId))
  }

  /** Scores of the rows whose label normalises to `e`, in row order. */
  function ScoresFor(rows: seq<Prediction>, e: Emotion): (r: seq<real>)
    ensures |r| <= |rows|
  {
    if rows == [] then []
    else
      var last := rows[|rows| - 1];
      ScoresFor(rows[..|rows| - 1], e) + (if MapEmotion(last.emotionLabel) == Some(e) then [last.score] else [])
  }

  /** Appending a row extends the scores of the emotion its label maps to, and no other. */
  lemma ScoresForAppend(rows: seq<Prediction>, p: Prediction)
    ensures forall e :: (ScoresFor(rows + [p], e) ==
      (if MapEmotion(p.emotionLabel) == Some(e) then ScoresFor(rows, e) + [p.score] else ScoresFor(rows, e)))
  {
    assert (rows + [p])[..|rows|] == rows;
    forall e ensures ScoresFor(rows + [p], e) ==
      (if MapEmotion(p.emotionLabel) == Some(e) then ScoresFor(rows, e) + [p.score] else ScoresFor(rows, e)) {
      assert ScoresFor(rows, e) + [] == ScoresFor(rows, e);
    }
  }

  /** The same, for the prefixes a loop over the rows walks through. */
  lemma ScoresForExtend(rows: seq<Prediction>, i: nat)
    requires i < |rows|
    ensures forall e :: (ScoresFor(rows[..i + 1], e) ==
      (if MapEmotion(rows[i].emotionLabel) == Some(e) then ScoresFor(rows[..i], e) + [rows[i].score]
       else ScoresFor(rows[..i], e)))
  {
    assert rows[..i + 1] == rows[..i] + [rows[i]];
    ScoresForAppend(rows[..i], rows[i]);
  }

  /** The scores loop of `emotion_histogram_distribution` and `dashboard_summary`:
      the scores of the rows whose label maps to `e`, in row order. */
  method CollectScores(rows: seq<Prediction>, e: Emotion) returns (scores: seq<real>)
    ensures scores == ScoresFor(rows, e)
  {
    scores := [];
    var i := 0;
    while i < |rows|
      invariant 0 <= i <= |rows|
      invariant scores == ScoresFor(rows[..i], e)
    {
      ScoresForExtend(rows, i);
      if MapEmotion(rows[i].emotionLabel) == Some(e) {
        scores := scores + [rows[i].score];
      }
      i := i + 1;
    }
    assert rows[..i] == rows;
  }

  /** Python's `sum` over a list of scores. */
  function Sum(s: seq<real>): real {
    if s == [] then 0.0 else Sum(s[..|s| - 1]) + s[|s| - 1]
  }

  lemma SumAppend(s: seq<real>, x: real)
    ensures Sum(s + [x]) == Sum(s) + x
  {
    assert (s + [x])[..|s|] == s;
  }

  /** The mean of the scores, 0 for none (`sum(xs) / len(xs) if xs else 0.0`). */
  function Mean(s: seq<real>): real {
    if |s| == 0 then 0.0 else Sum(s) / (|s| as real)
  }

  predicate AllUnit(s: seq<real>) {
    forall j :: 0 <= j < |s| ==> 0.0 <= s[j] <= 1.0
  }

  /** A sum of scores in [0,1] lies between 0 and the number of scores. */
  lemma {:induction false} SumOfUnitScores(s: seq<real>)
    requires AllUnit(s)
    ensures 0.0 <= Sum(s) <= |s| as real
    decreases |s|
  {
    if s != [] {
      SumOfUnitScores(s[..|s| - 1]);
    }
  }

  /** A mean of scores in [0,1] is itself in [0,1]. */
  lemma MeanOfUnitScores(s: seq<real>)
    requires AllUnit(s)
    ensures 0.0 <= Mean(s) <= 1.0
  {
    SumOfUnitScores(s);
  }

  /** Scores with a non-negative sum. */
  lemma {:induction false} SumNonNegative(s: seq<real>)
    requires forall j :: 0 <= j < |s| ==> 0.0 <= s[j]
    ensures 0.0 <= Sum(s)
    decreases |s|
  {
    if s != [] {
      SumNonNegative(s[..|s| - 1]);
    }
  }

  predicate NonNegativeScores(rows: seq<Prediction>) {
    forall j :: 0 <= j < |rows| ==> 0.0 <= rows[j].score
  }

  lemma {:induction false} ScoresForNonNegative(rows: seq<Prediction>, e: Emotion)
    requires NonNegativeScores(rows)
    ensures forall j :: 0 <= j < |ScoresFor(rows, e)| ==> 0.0 <= ScoresFor(rows, e)[j]
    decreases |rows|
  {
    if rows != [] {
      ScoresForNonNegative(rows[..|rows| - 1], e);
    }
  }
}
