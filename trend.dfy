/** The emotion-trend endpoint: a per-day mean of each standard emotion over a
    window of `days` days ending today. Days are day numbers. */
module Trend {
  import opened Common
  import opened Records
  import opened Emotions
  import opened CompanyScope

  const MIN_DAYS: int := 1
  const MAX_DAYS: int := 180

  /** One entry of the series: its day and the seven emotion means. */
  datatype TrendPoint = TrendPoint(day: int, means: map<Emotion, real>)

  /** Row `p` was created on day `d` and its label maps to `e`. */
  predicate InSlot(p: Prediction, d: int, e: Emotion) {
    p.createdDay == d && MapEmotion(p.emotionLabel) == Some(e)
  }

  /** The scores of the rows created on day `d` whose label maps to `e`, in row order. */
  function DayScores(rows: seq<Prediction>, d: int, e: Emotion): seq<real> {
    if rows == [] then []
    else
      var p := rows[|rows| - 1];
      DayScores(rows[..|rows| - 1], d, e) + (if InSlot(p, d, e) then [p.score] else [])
  }

  /** Appending a row adds its score to its own day and emotion, and nowhere else. */
  lemma DayScoresAppend(rows: seq<Prediction>, p: Prediction, d: int, e: Emotion)
    ensures DayScores(rows + [p], d, e) ==
      if InSlot(p, d, e) then DayScores(rows, d, e) + [p.score] else DayScores(rows, d, e)
  {
    assert (rows + [p])[..|rows|] == rows;
    assert DayScores(rows, d, e) + [] == DayScores(rows, d, e);
  }

  /** The running total `sums[day][e]` accumulates for day `d`. */
  function DaySum(rows: seq<Prediction>, d: int, e: Emotion): real {
    if rows == [] then 0.0
    else
      var p := rows[|rows| - 1];
      DaySum(rows[..|rows| - 1], d, e) + (if InSlot(p, d, e) then p.score else 0.0)
  }

  /** The running count `counts[day][e]` accumulates for day `d`. */
  function DayCount(rows: seq<Prediction>, d: int, e: Emotion): nat {
    if rows == [] then 0
    else
      var p := rows[|rows| - 1];
      DayCount(rows[..|rows| - 1], d, e) + (if InSlot(p, d, e) then 1 else 0)
  }

  /** The running total and count are the sum and the length of the day's scores. */
  lemma {:induction false} DaySumCount(rows: seq<Prediction>, d: int, e: Emotion)
    ensures DaySum(rows, d, e) == Sum(DayScores(rows, d, e))
    ensures DayCount(rows, d, e) == |DayScores(rows, d, e)|
    decreases |rows|
  {
    if rows != [] {
      var init := rows[..|rows| - 1];
      var p := rows[|rows| - 1];
      assert rows == init + [p];
      DaySumCount(init, d, e);
      DayScoresAppend(init, p, d, e);
      if InSlot(p, d, e) {
        SumAppend(DayScores(init, d, e), p.score);
      }
    }
  }

  /** `(sums[key][e] / c) if c else 0.0` */
  function DayMean(rows: seq<Prediction>, d: int, e: Emotion): real {
    if DayCount(rows, d, e) == 0 then 0.0 else DaySum(rows, d, e) / (DayCount(rows, d, e) as real)
  }

  /** A day's mean is the mean of the day's scores, 0 when there are none. */
  lemma DayMeanIsMean(rows: seq<Prediction>, d: int, e: Emotion)
    ensures DayMean(rows, d, e) == Mean(DayScores(rows, d, e))
  {
    DaySumCount(rows, d, e);
  }

  /** The rows created between `first` and `last` inclusive (the query's date filter). */
  function InDays(rows: seq<Prediction>, first: int, last: int): seq<Prediction> {
    if rows == [] then []
    else
      var p := rows[|rows| - 1];
      InDays(rows[..|rows| - 1], first, last) + (if first <= p.createdDay <= last then [p] else [])
  }

  /** Appending a row adds its score, and one to the count, to its own day and emotion only. */
  lemma DayTallyAppend(rows: seq<Prediction>, p: Prediction, d: int, e: Emotion)
    ensures DaySum(rows + [p], d, e) == DaySum(rows, d, e) + (if InSlot(p, d, e) then p.score else 0.0)
    ensures DayCount(rows + [p], d, e) == DayCount(rows, d, e) + (if InSlot(p, d, e) then 1 else 0)
  {
    assert (rows + [p])[..|rows|] == rows;
  }

  /** The date filter loses nothing of a day inside the window. */
  lemma {:induction false} DayTallyOfWindow(rows: seq<Prediction>, first: int, last: int, d: int, e: Emotion)
    requires first <= d <= last
    ensures DaySum(InDays(rows, first, last), d, e) == DaySum(rows, d, e)
    ensures DayCount(InDays(rows, first, last), d, e) == DayCount(rows, d, e)
    decreases |rows|
  {
    if rows != [] {
      var init := rows[..|rows| - 1];
      var p := rows[|rows| - 1];
      var w := InDays(init, first, last);
      assert rows == init + [p];
      DayTallyOfWindow(init, first, last, d, e);
      DayTallyAppend(init, p, d, e);
      if first <= p.createdDay <= last {
        assert InDays(rows, first, last) == w + [p];
        DayTallyAppend(w, p, d, e);
      } else {
        assert InDays(rows, first, last) == w;
        assert !InSlot(p, d, e);
      }
    }
  }

  /** The seven means of day `d`, 0 for an emotion without scores. */
  function DayMeans(rows: seq<Prediction>, d: int): (m: map<Emotion, real>)
    ensures forall e :: e in m && m[e] == DayMean(rows, d, e)
  {
    ByEmotion(e => DayMean(rows, d, e))
  }

  /** The series the endpoint promises: `days` entries, one per day from
      `today - (days - 1)` to `today`, each holding that day's means. */
  function TrendSeries(rows: seq<Prediction>, days: nat, today: int): (series: seq<TrendPoint>)
    ensures |series| == days
    ensures forall k :: 0 <= k < days ==>
      series[k] == TrendPoint(today - (days - 1) + k, DayMeans(rows, today - (days - 1) + k))
  {
    seq(days, k requires 0 <= k < days => TrendPoint(today - (days - 1) + k, DayMeans(rows, today - (days - 1) + k)))
  }

  /** The series is `days` long, its days are consecutive and ascending, and it ends today. */
  lemma TrendSeriesDays(rows: seq<Prediction>, days: nat, today: int)
    requires days >= 1
    ensures |TrendSeries(rows, days, today)| == days
    ensures TrendSeries(rows, days, today)[0].day == today - (days - 1)
    ensures TrendSeries(rows, days, today)[days - 1].day == today
    ensures forall k :: 0 <= k < days - 1 ==>
      TrendSeries(rows, days, today)[k + 1].day == TrendSeries(rows, days, today)[k].day + 1
  {
  }

  predicate UnitScores(rows: seq<Prediction>) {
    forall j :: 0 <= j < |rows| ==> 0.0 <= rows[j].score <= 1.0
  }

  lemma {:induction false} DayScoresUnit(rows: seq<Prediction>, d: int, e: Emotion)
    requires UnitScores(rows)
    ensures AllUnit(DayScores(rows, d, e))
    decreases |rows|
  {
    if rows != [] {
      DayScoresUnit(rows[..|rows| - 1], d, e);
    }
  }

  /** Scores the model keeps in [0,1] give means in [0,1]. */
  lemma TrendMeansAreUnit(rows: seq<Prediction>, days: nat, today: int)
    requires UnitScores(rows)
    ensures forall k, e :: 0 <= k < days ==> 0.0 <= TrendSeries(rows, days, today)[k].means[e] <= 1.0
  {
    forall k, e | 0 <= k < days ensures 0.0 <= TrendSeries(rows, days, today)[k].means[e] <= 1.0 {
      var d := today - (days - 1) + k;
      DayScoresUnit(rows, d, e);
      MeanOfUnitScores(DayScores(rows, d, e));
      DayMeanIsMean(rows, d, e);
    }
  }

  lemma {:induction false} NoMatchNoCount(rows: seq<Prediction>, d: int, e: Emotion)
    requires forall j :: 0 <= j < |rows| ==> !InSlot(rows[j], d, e)
    ensures DayCount(rows, d, e) == 0
    decreases |rows|
  {
    if rows != [] {
      NoMatchNoCount(rows[..|rows| - 1], d, e);
    }
  }

  /** A day without a row whose label maps to `e` reports 0 for `e`. */
  lemma NoScoresZeroMean(rows: seq<Prediction>, days: nat, today: int, k: nat, e: Emotion)
    requires k < days
    requires forall j :: 0 <= j < |rows| ==> !InSlot(rows[j], today - (days - 1) + k, e)
    ensures TrendSeries(rows, days, today)[k].means[e] == 0.0
  {
    NoMatchNoCount(rows, today - (days - 1) + k, e);
  }

  /** Every emotion at 0, the start of a slot. */
  const NO_SUMS: map<Emotion, real> :=
    map[Stress := 0.0, Anxiety := 0.0, Fatigue := 0.0, Happiness := 0.0, Neutral := 0.0, Anger := 0.0, Surprise := 0.0]
  const NO_COUNTS: map<Emotion, nat> :=
    map[Stress := 0, Anxiety := 0, Fatigue := 0, Happiness := 0, Neutral := 0, Anger := 0, Surprise := 0]

  /** The slot of row `p` in a window of `days` days from `first`, if its
      day is in the window and its label maps to a standard emotion. */
  function SlotOf(p: Prediction, first: int, days: nat): (r: Option<(nat, Emotion)>)
    ensures r.Some? <==> 0 <= p.createdDay - first < days && MapEmotion(p.emotionLabel).Some?
    ensures r.Some? ==> r.value == (p.createdDay - first, MapEmotion(p.emotionLabel).value)
  {
    var k := p.createdDay - first;
    match MapEmotion(p.emotionLabel)
    case Some(e) => if 0 <= k < days then Some((k, e)) else None
    case None => None
  }

  /** The `sums` table after the rows: per day of the window, per emotion,
      the total score of the rows in that slot. */
  function TallySums(rows: seq<Prediction>, first: int, days: nat): (s: seq<map<Emotion, real>>)
    ensures |s| == days && forall k, e :: 0 <= k < days ==> e in s[k]
  {
    if rows == [] then
      forall e: Emotion ensures e in NO_SUMS { InStandard(e); }
      seq(days, _ => NO_SUMS)
    else
      var s := TallySums(rows[..|rows| - 1], first, days);
      var p := rows[|rows| - 1];
      match SlotOf(p, first, days)
      case Some((k, e)) => AddScore(s, k, e, p.score)
      case None => s
  }

  /** The `counts` table after the rows: per day and emotion, how many rows fell in that slot. */
  function TallyCounts(rows: seq<Prediction>, first: int, days: nat): (c: seq<map<Emotion, nat>>)
    ensures |c| == days && forall k, e :: 0 <= k < days ==> e in c[k]
  {
    if rows == [] then
      forall e: Emotion ensures e in NO_COUNTS { InStandard(e); }
      seq(days, _ => NO_COUNTS)
    else
      var c := TallyCounts(rows[..|rows| - 1], first, days);
      var p := rows[|rows| - 1];
      match SlotOf(p, first, days)
      case Some((k, e)) => AddOne(c, k, e)
      case None => c
  }

  /** `sums[k][e] += x` */
  function AddScore(s: seq<map<Emotion, real>>, k: nat, e: Emotion, x: real): (r: seq<map<Emotion, real>>)
    requires k < |s| && e in s[k]
    ensures |r| == |s|
    ensures forall j, e' :: 0 <= j < |s| && e' in s[j] ==>
      e' in r[j] && r[j][e'] == if j == k && e' == e then s[j][e'] + x else s[j][e']
  {
    s[k := s[k][e := s[k][e] + x]]
  }

  /** `counts[k][e] += 1` */
  function AddOne(c: seq<map<Emotion, nat>>, k: nat, e: Emotion): (r: seq<map<Emotion, nat>>)
    requires k < |c| && e in c[k]
    ensures |r| == |c|
    ensures forall j, e' :: 0 <= j < |c| && e' in c[j] ==>
      e' in r[j] && r[j][e'] == if j == k && e' == e then c[j][e'] + 1 else c[j][e']
  {
    c[k := c[k][e := c[k][e] + 1]]
  }

  /** Each slot of `sums` holds the running total of its day and emotion. */
  lemma {:induction false} TallySumsAt(rows: seq<Prediction>, first: int, days: nat, k: nat, e: Emotion)
    requires k < days
    ensures TallySums(rows, first, days)[k][e] == DaySum(rows, first + k, e)
    decreases |rows|
  {
    if rows == [] {
      InStandard(e);
    } else {
      TallySumsAt(rows[..|rows| - 1], first, days, k, e);
    }
  }

  /** Each slot of `counts` holds the running count of its day and emotion. */
  lemma {:induction false} TallyCountsAt(rows: seq<Prediction>, first: int, days: nat, k: nat, e: Emotion)
    requires k < days
    ensures TallyCounts(rows, first, days)[k][e] == DayCount(rows, first + k, e)
    decreases |rows|
  {
    if rows == [] {
      InStandard(e);
    } else {
      TallyCountsAt(rows[..|rows| - 1], first, days, k, e);
    }
  }

  /** One more row adds its score to its own slot of `sums` only. */
  lemma TallySumsStep(rows: seq<Prediction>, first: int, days: nat, i: nat)
    requires i < |rows|
    ensures var s := TallySums(rows[..i], first, days);
      TallySums(rows[..i + 1], first, days) ==
        match SlotOf(rows[i], first, days)
        case Some((k, e)) => AddScore(s, k, e, rows[i].score)
        case None => s
  {
    assert rows[..i + 1][..i] == rows[..i];
  }

  /** One more row adds one to its own slot of `counts` only. */
  lemma TallyCountsStep(rows: seq<Prediction>, first: int, days: nat, i: nat)
    requires i < |rows|
    ensures var c := TallyCounts(rows[..i], first, days);
      TallyCounts(rows[..i + 1], first, days) ==
        match SlotOf(rows[i], first, days)
        case Some((k, e)) => AddOne(c, k, e)
        case None => c
  {
    assert rows[..i + 1][..i] == rows[..i];
  }

  /** The first loop of `emotion_trend`: start every (day, emotion) slot at 0
      and add each row whose label maps and whose day is in the window. */
  method TallyByDay(rows: seq<Prediction>, first: int, days: nat)
    returns (sums: seq<map<Emotion, real>>, counts: seq<map<Emotion, nat>>)
    ensures sums == TallySums(rows, first, days) && counts == TallyCounts(rows, first, days)
  {
    sums := seq(days, _ => NO_SUMS);
    counts := seq(days, _ => NO_COUNTS);
    var i := 0;
    while i < |rows|
      invariant 0 <= i <= |rows|
      invariant sums == TallySums(rows[..i], first, days)
      invariant counts == TallyCounts(rows[..i], first, days)
    {
      TallySumsStep(rows, first, days, i);
      TallyCountsStep(rows, first, days, i);
      match SlotOf(rows[i], first, days) {
        case Some((k, e)) =>
          sums := AddScore(sums, k, e, rows[i].score);
          counts := AddOne(counts, k, e);
        case None =>
      }
      i := i + 1;
    }
    assert rows[..i] == rows;
  }

  /** `entry` holds, per emotion, the slot's sum divided by its count, or 0 for an empty slot. */
  predicate MeansOf(entry: map<Emotion, real>, sum: map<Emotion, real>, count: map<Emotion, nat>) {
    forall e :: e in sum && e in count && e in entry &&
      entry[e] == (if count[e] != 0 then sum[e] / (count[e] as real) else 0.0)
  }

  /** The inner loop of `emotion_trend`: each emotion's mean for one day,
      0 when the day has no score for it. */
  method DayEntry(sum: map<Emotion, real>, count: map<Emotion, nat>) returns (entry: map<Emotion, real>)
    requires forall e :: e in sum && e in count
    ensures MeansOf(entry, sum, count)
  {
    entry := map[];
    var j := 0;
    while j < |STANDARD_EMOTIONS|
      invariant 0 <= j <= |STANDARD_EMOTIONS|
      invariant forall e :: e in entry <==> e in STANDARD_EMOTIONS[..j]
      invariant forall e :: e in entry ==> entry[e] == (if count[e] != 0 then sum[e] / (count[e] as real) else 0.0)
    {
      var e := STANDARD_EMOTIONS[j];
      var c := count[e];
      entry := entry[e := if c != 0 then sum[e] / (c as real) else 0.0];
      j := j + 1;
    }
    forall e ensures e in entry {
      InStandard(e);
      assert STANDARD_EMOTIONS[..j] == STANDARD_EMOTIONS;
    }
  }

  /** A day's entry built from the tables is that day's means. */
  lemma EntryIsDayMeans(entry: map<Emotion, real>, rows: seq<Prediction>, first: int, days: nat, k: nat)
    requires k < days
    requires MeansOf(entry, TallySums(rows, first, days)[k], TallyCounts(rows, first, days)[k])
    ensures entry == DayMeans(rows, first + k)
  {
    forall e ensures e in entry && entry[e] == DayMean(rows, first + k, e) {
      TallySumsAt(rows, first, days, k, e);
      TallyCountsAt(rows, first, days, k, e);
    }
    MapsAgree(entry, DayMeans(rows, first + k));
  }

  /** Appending the next day's point keeps the series a prefix of the promised one. */
  lemma SeriesStep(series: seq<TrendPoint>, series': seq<TrendPoint>, entry: map<Emotion, real>,
                   rows: seq<Prediction>, first: int, k: nat)
    requires |series| == k
    requires forall j :: 0 <= j < k ==> series[j] == TrendPoint(first + j, DayMeans(rows, first + j))
    requires entry == DayMeans(rows, first + k)
    requires series' == series + [TrendPoint(first + k, entry)]
    ensures forall j :: 0 <= j < k + 1 ==> series'[j] == TrendPoint(first + j, DayMeans(rows, first + j))
  {
  }

  /** The second loop of `emotion_trend`: one entry per day, in day order. */
  method BuildSeries(sums: seq<map<Emotion, real>>, counts: seq<map<Emotion, nat>>,
                     rows: seq<Prediction>, first: int, days: nat)
    returns (series: seq<TrendPoint>)
    requires sums == TallySums(rows, first, days) && counts == TallyCounts(rows, first, days)
    ensures |series| == days
    ensures forall k :: 0 <= k < days ==> series[k] == TrendPoint(first + k, DayMeans(rows, first + k))
  {
    series := [];
    var k := 0;
    while k < days
      invariant 0 <= k <= days
      invariant |series| == k
      invariant forall j :: 0 <= j < k ==> series[j] == TrendPoint(first + j, DayMeans(rows, first + j))
    {
      var entry := DayEntry(sums[k], counts[k]);
      EntryIsDayMeans(entry, rows, first, days, k);
      SeriesStep(series, series + [TrendPoint(first + k, entry)], entry, rows, first, k);
      series := series + [TrendPoint(first + k, entry)];
      k := k + 1;
    }
  }

  /** The date filter changes no day's means inside the window. */
  lemma DayMeansOfWindow(rows: seq<Prediction>, first: int, last: int, d: int)
    requires first <= d <= last
    ensures DayMeans(InDays(rows, first, last), d) == DayMeans(rows, d)
  {
    forall e ensures DayMean(InDays(rows, first, last), d, e) == DayMean(rows, d, e) {
      DayTallyOfWindow(rows, first, last, d, e);
    }
    MapsAgree(DayMeans(InDays(rows, first, last), d), DayMeans(rows, d));
  }

  /** One day's point built from the window's rows is that day's point of the promised series. */
  lemma PointOfWindow(point: TrendPoint, rows: seq<Prediction>, first: int, days: nat, today: int, k: nat)
    requires first == today - (days - 1) && k < days
    requires point == TrendPoint(first + k, DayMeans(InDays(rows, first, today), first + k))
    ensures point == TrendSeries(rows, days, today)[k]
  {
    var d := first + k;
    DayMeansOfWindow(rows, first, today, d);
    assert point == TrendPoint(d, DayMeans(rows, d));
    assert TrendSeries(rows, days, today)[k] == TrendPoint(d, DayMeans(rows, d));
  }

  /** The series built from the window's rows is the series of all the rows. */
  lemma SeriesOfWindow(series: seq<TrendPoint>, rows: seq<Prediction>, first: int, days: nat, today: int)
    requires first == today - (days - 1)
    requires |series| == days
    requires forall k :: 0 <= k < days ==> series[k] == TrendPoint(first + k, DayMeans(InDays(rows, first, today), first + k))
    ensures series == TrendSeries(rows, days, today)
  {
    forall k | 0 <= k < days ensures series[k] == TrendSeries(rows, days, today)[k] {
      PointOfWindow(series[k], rows, first, days, today, k);
    }
  }

  /** `emotion_trend`: the query bound on `days` first, then the role check,
      then the tally over the company's rows in the window and the series. */
  method EmotionTrend(caller: User, days: int, today: int, users: seq<User>, videos: seq<Video>, preds: seq<Prediction>)
    returns (r: Result<seq<TrendPoint>>)
    ensures !(MIN_DAYS <= days <= MAX_DAYS) <==> r == Err(ValidationError)
    ensures MIN_DAYS <= days <= MAX_DAYS ==> (caller.role != HR <==> r == Err(FORBIDDEN))
    ensures MIN_DAYS <= days <= MAX_DAYS && caller.role == HR ==>
      r == Ok(TrendSeries(CompanyPredictions(caller, users, videos, preds), days, today))
  {
    if !(MIN_DAYS <= days <= MAX_DAYS) {
      return Err(ValidationError);
    }
    var forbidden := AssertHr(caller);
    if forbidden.Some? {
      return Err(forbidden.value);
    }
    var company := CompanyPredictions(caller, users, videos, preds);
    var first := today - (days - 1);
    var rows := InDays(company, first, today);
    var sums, counts := TallyByDay(rows, first, days);
    var series := BuildSeries(sums, counts, rows, first, days);
    SeriesOfWindow(series, company, first, days, today);
    return Ok(series);
  }
}
