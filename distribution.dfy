/** The emotion-distribution and pie endpoints of the HR dashboard. */
module Distribution {
  import opened Common
  import opened Records
  import opened Emotions
  import opened CompanyScope

  /** A dashboard map: one value for every standard emotion. */
  predicate Complete(m: map<Emotion, real>) {
    forall e: Emotion :: e in m
  }

  /** Score sums per standard emotion: what the distribution endpoint reports. */
  function DistributionOf(rows: seq<Prediction>): (dist: map<Emotion, real>)
    ensures Complete(dist)
  {
    ByEmotion(e => Sum(ScoresFor(rows, e)))
  }

  /** `emotion_distribution`: per standard emotion, the sum of the scores of the
      company's predictions whose label normalises to it. */
  method EmotionDistribution(caller: User, users: seq<User>, videos: seq<Video>, preds: seq<Prediction>)
    returns (r: Result<map<Emotion, real>>)
    ensures caller.role != HR <==> r == Err(FORBIDDEN)
    ensures caller.role == HR ==> r == Ok(DistributionOf(CompanyPredictions(caller, users, videos, preds)))
  {
    var forbidden := AssertHr(caller);
    if forbidden.Some? {
      return Err(forbidden.value);
    }
    var ids := CompanyUserIds(users, caller.companyId);
    var rows := ScopedPredictions(videos, preds, ids);
    if ids == {} {
      NoRowsAllZero(rows);
      return Ok(ByEmotion(e => 0.0));
    }
    var counts := SumScoresByEmotion(rows);
    return Ok(counts);
  }

  /** The accumulation loop of `emotion_distribution`: start every standard
      emotion at 0 and add each row's score to the emotion its label maps to. */
  method SumScoresByEmotion(rows: seq<Prediction>) returns (counts: map<Emotion, real>)
    ensures counts == DistributionOf(rows)
  {
    counts := map[Stress := 0.0, Anxiety := 0.0, Fatigue := 0.0, Happiness := 0.0,
                  Neutral := 0.0, Anger := 0.0, Surprise := 0.0];
    var i := 0;
    while i < |rows|
      invariant 0 <= i <= |rows|
      invariant counts == Tally(rows[..i])
    {
      assert rows[..i + 1][..i] == rows[..i];
      match MapEmotion(rows[i].emotionLabel) {
        case Some(e) =>
          counts := counts[e := counts[e] + rows[i].score];
        case None =>
      }
      i := i + 1;
    }
    assert rows[..i] == rows;
    TallyIsDistribution(rows);
  }

  /** The map the accumulation loop builds, one row at a time. */
  function Tally(rows: seq<Prediction>): (counts: map<Emotion, real>)
    ensures Complete(counts)
  {
    if rows == [] then
      var zero := map[Stress := 0.0, Anxiety := 0.0, Fatigue := 0.0, Happiness := 0.0,
                      Neutral := 0.0, Anger := 0.0, Surprise := 0.0];
      assert forall e: Emotion :: e in zero by {
        forall e: Emotion ensures e in zero { InStandard(e); }
      }
      zero
    else
      var counts := Tally(rows[..|rows| - 1]);
      var p := rows[|rows| - 1];
      match MapEmotion(p.emotionLabel)
      case Some(e) => counts[e := counts[e] + p.score]
      case None => counts
  }

  /** Each emotion of the loop's map holds the sum of that emotion's scores. */
  lemma {:induction false} TallyAt(rows: seq<Prediction>, e: Emotion)
    ensures Tally(rows)[e] == Sum(ScoresFor(rows, e))
    decreases |rows|
  {
    if rows != [] {
      var init := rows[..|rows| - 1];
      var p := rows[|rows| - 1];
      TallyAt(init, e);
      assert rows == init + [p];
      TallyStep(init, p, e);
      ScoresForAppend(init, p);
      SumAppend(ScoresFor(init, e), p.score);
      assert ScoresFor(init, e) + [] == ScoresFor(init, e);
    }
  }

  /** One more row adds its score to the emotion its label maps to, and to no other. */
  lemma TallyStep(rows: seq<Prediction>, p: Prediction, e: Emotion)
    ensures Tally(rows + [p])[e] ==
      if MapEmotion(p.emotionLabel) == Some(e) then Tally(rows)[e] + p.score else Tally(rows)[e]
  {
    assert (rows + [p])[..|rows|] == rows;
  }

  /** The loop's map is the distribution. */
  lemma TallyIsDistribution(rows: seq<Prediction>)
    ensures Tally(rows) == DistributionOf(rows)
  {
    forall e ensures Tally(rows)[e] == DistributionOf(rows)[e] {
      TallyAt(rows, e);
    }
    MapsAgree(Tally(rows), DistributionOf(rows));
  }

  /** No rows: every emotion at 0. */
  lemma NoRowsAllZero(rows: seq<Prediction>)
    requires rows == []
    ensures DistributionOf(rows) == ByEmotion(e => 0.0)
  {
    assert forall e :: ScoresFor(rows, e) == [];
  }

  /** A prediction whose label normalises to no standard emotion leaves the
      distribution as it was. */
  lemma UnmappedRowIgnored(rows: seq<Prediction>, p: Prediction)
    requires MapEmotion(p.emotionLabel).None?
    ensures DistributionOf(rows + [p]) == DistributionOf(rows)
  {
    assert (rows + [p])[..|rows|] == rows;
    assert forall e :: ScoresFor(rows + [p], e) == ScoresFor(rows, e);
  }

  /** A prediction whose label normalises to `e` adds its score to `e` and to nothing else. */
  lemma MappedRowAdds(rows: seq<Prediction>, p: Prediction, e: Emotion)
    requires MapEmotion(p.emotionLabel) == Some(e)
    ensures DistributionOf(rows + [p])[e] == DistributionOf(rows)[e] + p.score
    ensures forall e' :: e' != e ==> DistributionOf(rows + [p])[e'] == DistributionOf(rows)[e']
  {
    assert (rows + [p])[..|rows|] == rows;
    SumAppend(ScoresFor(rows, e), p.score);
    assert forall e' :: e' != e ==> ScoresFor(rows + [p], e') == ScoresFor(rows, e');
  }

  /** The same as one map update: the loop's `counts[std] += p.score`. */
  lemma MappedRowGrows(rows: seq<Prediction>, p: Prediction, e: Emotion)
    requires MapEmotion(p.emotionLabel) == Some(e)
    ensures DistributionOf(rows + [p]) == DistributionOf(rows)[e := DistributionOf(rows)[e] + p.score]
  {
    MappedRowAdds(rows, p, e);
    MapsAgree(DistributionOf(rows + [p]), DistributionOf(rows)[e := DistributionOf(rows)[e] + p.score]);
  }

  /** A company without users gets all seven emotions at 0. */
  lemma NoUsersAllZero(caller: User, users: seq<User>, videos: seq<Video>, preds: seq<Prediction>)
    requires CompanyUserIds(users, caller.companyId) == {}
    ensures forall e :: DistributionOf(CompanyPredictions(caller, users, videos, preds))[e] == 0.0
  {
    NoRowsAllZero(CompanyPredictions(caller, users, videos, preds));
  }

  /** With non-negative scores every distribution value is non-negative. */
  lemma DistributionNonNegative(rows: seq<Prediction>)
    requires NonNegativeScores(rows)
    ensures forall e :: 0.0 <= DistributionOf(rows)[e]
  {
    forall e ensures 0.0 <= DistributionOf(rows)[e] {
      ScoresForNonNegative(rows, e);
      SumNonNegative(ScoresFor(rows, e));
    }
  }

  /** Sum of a map's values over the given keys, in key order. */
  function SumOver(m: map<Emotion, real>, keys: seq<Emotion>): real
    requires Complete(m)
  {
    if keys == [] then 0.0 else SumOver(m, keys[..|keys| - 1]) + m[keys[|keys| - 1]]
  }

  /** `sum(dist.values())` */
  function Total(dist: map<Emotion, real>): real
    requires Complete(dist)
  {
    SumOver(dist, STANDARD_EMOTIONS)
  }

  /** The divisor of the pie: the total, or 1 when the total is 0. */
  function PieDivisor(dist: map<Emotion, real>): (d: real)
    requires Complete(dist)
    ensures d != 0.0
    ensures Total(dist) != 0.0 ==> d == Total(dist)
    ensures Total(dist) == 0.0 ==> d == 1.0
  {
    if Total(dist) == 0.0 then 1.0 else Total(dist)
  }

  /** The pie comprehension: each slice is its value over the divisor. */
  function Pie(dist: map<Emotion, real>): (pie: map<Emotion, real>)
    requires Complete(dist)
    ensures Complete(pie)
  {
    map e | e in dist :: dist[e] / PieDivisor(dist)
  }

  lemma {:induction false} SumOverScaled(dist: map<Emotion, real>, pie: map<Emotion, real>, d: real, keys: seq<Emotion>)
    requires Complete(dist) && Complete(pie)
    requires d != 0.0
    requires forall k :: pie[k] == dist[k] / d
    ensures SumOver(pie, keys) == SumOver(dist, keys) / d
    decreases |keys|
  {
    if keys != [] {
      var init := keys[..|keys| - 1];
      var k := keys[|keys| - 1];
      SumOverScaled(dist, pie, d, init);
      assert SumOver(dist, init) / d + dist[k] / d == (SumOver(dist, init) + dist[k]) / d;
    }
  }

  /** When the total is non-zero, the slices add up to 1. */
  lemma PieSumsToOne(dist: map<Emotion, real>)
    requires Complete(dist)
    requires Total(dist) != 0.0
    ensures Total(Pie(dist)) == 1.0
  {
    SumOverScaled(dist, Pie(dist), Total(dist), STANDARD_EMOTIONS);
  }

  lemma {:induction false} ZeroSumOfNonNegatives(m: map<Emotion, real>, keys: seq<Emotion>)
    requires Complete(m)
    requires forall k :: 0.0 <= m[k]
    requires SumOver(m, keys) == 0.0
    ensures forall k :: k in keys ==> m[k] == 0.0
    decreases |keys|
  {
    if keys != [] {
      var init := keys[..|keys| - 1];
      SumOverNonNegative(m, init);
      ZeroSumOfNonNegatives(m, init);
    }
  }

  lemma {:induction false} SumOverNonNegative(m: map<Emotion, real>, keys: seq<Emotion>)
    requires Complete(m)
    requires forall k :: 0.0 <= m[k]
    ensures 0.0 <= SumOver(m, keys)
    decreases |keys|
  {
    if keys != [] {
      SumOverNonNegative(m, keys[..|keys| - 1]);
    }
  }

  /** With non-negative values and a zero total, every slice is 0. */
  lemma PieOfZeroTotal(dist: map<Emotion, real>)
    requires Complete(dist)
    requires forall e :: 0.0 <= dist[e]
    requires Total(dist) == 0.0
    ensures forall e :: Pie(dist)[e] == 0.0
  {
    ZeroSumOfNonNegatives(dist, STANDARD_EMOTIONS);
    forall e ensures Pie(dist)[e] == 0.0 {
      InStandard(e);
    }
  }

  /** With non-negative values every slice lies in [0,1]. */
  lemma PieSlicesAreFractions(dist: map<Emotion, real>)
    requires Complete(dist)
    requires forall e :: 0.0 <= dist[e]
    ensures forall e :: 0.0 <= Pie(dist)[e] <= 1.0
  {
    if Total(dist) == 0.0 {
      PieOfZeroTotal(dist);
    } else {
      forall e ensures 0.0 <= Pie(dist)[e] <= 1.0 {
        InStandard(e);
        SumOverBound(dist, STANDARD_EMOTIONS, e);
        SumOverNonNegative(dist, STANDARD_EMOTIONS);
        Fraction(dist[e], Total(dist));
      }
    }
  }

  lemma Fraction(x: real, t: real)
    requires 0.0 <= x <= t && t != 0.0
    ensures 0.0 <= x / t <= 1.0
  {
  }

  lemma {:induction false} SumOverBound(m: map<Emotion, real>, keys: seq<Emotion>, e: Emotion)
    requires Complete(m)
    requires forall k :: 0.0 <= m[k]
    requires e in keys
    ensures m[e] <= SumOver(m, keys)
    decreases |keys|
  {
    var init := keys[..|keys| - 1];
    SumOverNonNegative(m, init);
    if keys[|keys| - 1] != e {
      assert e in init;
      SumOverBound(m, init, e);
    }
  }

  /** `emotion_pie_distribution`: the distribution, re-normalised. */
  method EmotionPieDistribution(caller: User, users: seq<User>, videos: seq<Video>, preds: seq<Prediction>)
    returns (r: Result<map<Emotion, real>>)
    ensures caller.role != HR <==> r == Err(FORBIDDEN)
    ensures caller.role == HR ==> r == Ok(Pie(DistributionOf(CompanyPredictions(caller, users, videos, preds))))
  {
    var forbidden := AssertHr(caller);
    if forbidden.Some? {
      return Err(forbidden.value);
    }
    var result := EmotionDistribution(caller, users, videos, preds);
    var dist := result.value;
    return Ok(Pie(dist));
  }
}
