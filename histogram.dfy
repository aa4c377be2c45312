/** The emotion-histogram endpoint: the scores of one standard emotion over
    the caller's company, counted into `bins` equal-width buckets of [0, 1]. */
module Histogram {
  import opened Common
  import opened Text
  import opened Records
  import opened Emotions
  import opened CompanyScope

  const MIN_BINS: int := 2
  const MAX_BINS: int := 20
  const UNSUPPORTED: HttpError := HttpError(400, "Unsupported emotion")

  /** One bar of the histogram: its range and how many scores fell in it. */
  datatype Bucket = Bucket(from: real, to: real, count: nat)

  /** `map_emotion(emotion) or emotion.strip().lower()`, kept only when it
      names a standard emotion. */
  function SelectEmotion(emotion: string): (r: Option<Emotion>)
    ensures MapEmotion(emotion).Some? ==> r == MapEmotion(emotion)
    ensures MapEmotion(emotion).None? ==> r == FromName(Lower(Strip(emotion)))
  {
    match MapEmotion(emotion)
    case Some(e) => Some(e)
    case None => FromName(Lower(Strip(emotion)))
  }

  /** The fallback never adds anything: every standard name is its own synonym,
      so a parameter the fallback accepts is one the synonym table accepts. */
  lemma FallbackRedundant(emotion: string)
    ensures SelectEmotion(emotion) == MapEmotion(emotion)
  {
    var key := Lower(Strip(emotion));
    if MapEmotion(emotion).None? && FromName(key).Some? {
      var e := FromName(key).value;
      StandardMapsToItself(e);
      StripLower(Strip(emotion));
      LowerIdempotent(Strip(emotion));
      StripIdempotent(emotion);
      assert false;
    }
  }

  /** Stripping twice is stripping once. */
  lemma StripIdempotent(s: string)
    ensures Strip(Strip(s)) == Strip(s)
  {
    StripEnds(s);
    StripNoSpace(Strip(s));
  }

  /** `int(min(bins - 1, max(0, s // step)))` with `step = 1 / bins`: the
      bucket of score `s`, clamped into the bins. */
  function BucketIndex(s: real, bins: nat): (b: nat)
    requires bins >= 1
    ensures b < bins
    ensures 0 <= (s * bins as real).Floor < bins ==> b == (s * bins as real).Floor
    ensures (s * bins as real).Floor < 0 ==> b == 0
    ensures (s * bins as real).Floor >= bins ==> b == bins - 1
  {
    var q := (s * bins as real).Floor;
    var low := if q < 0 then 0 else q;
    if low > bins - 1 then bins - 1 else low
  }

  /** The lower edge of bucket `b`: `b * step`. */
  function From(b: nat, bins: nat): real
    requires bins >= 1
  {
    b as real / bins as real
  }

  /** A score in [0, 1] lies in the range of its bucket; only the last bucket
      is closed on the right, and it holds 1.0. */
  lemma BucketHoldsScore(s: real, bins: nat)
    requires bins >= 1 && 0.0 <= s <= 1.0
    ensures From(BucketIndex(s, bins), bins) <= s
    ensures s < From(BucketIndex(s, bins) + 1, bins) || (s == 1.0 && BucketIndex(s, bins) == bins - 1)
  {
    var n := bins as real;
    var b := BucketIndex(s, bins);
    var q := (s * n).Floor;
    assert 0.0 <= s * n <= n;
    assert 0 <= q <= bins;
    ScaleBelow(b as real, s, n);
    if q < bins {
      assert b == q;
      ScaleAbove(s, (b + 1) as real, n);
    } else {
      assert s * n >= n;
      assert s == 1.0;
    }
  }

  /** `b / n <= s` when `b <= s * n`. */
  lemma ScaleBelow(b: real, s: real, n: real)
    requires n > 0.0 && b <= s * n
    ensures b / n <= s
  {
    assert b / n == (b / n) * 1.0;
    assert (b / n) * n == b;
  }

  /** `s < c / n` when `s * n < c`. */
  lemma ScaleAbove(s: real, c: real, n: real)
    requires n > 0.0 && s * n < c
    ensures s < c / n
  {
    assert (c / n) * n == c;
  }

  /** A score of exactly 1.0 goes to the last bucket. */
  lemma OneInLastBucket(bins: nat)
    requires bins >= 1
    ensures BucketIndex(1.0, bins) == bins - 1
  {
  }

  /** How many of `scores` fall in bucket `b`. */
  function CountIn(scores: seq<real>, bins: nat, b: nat): nat
    requires bins >= 1
  {
    if scores == [] then 0
    else
      CountIn(scores[..|scores| - 1], bins, b) + (if BucketIndex(scores[|scores| - 1], bins) == b then 1 else 0)
  }

  /** The next score of a loop over `scores` counts in its own bucket only. */
  lemma CountInExtend(scores: seq<real>, bins: nat, j: nat)
    requires bins >= 1 && j < |scores|
    ensures forall b :: (CountIn(scores[..j + 1], bins, b) ==
      CountIn(scores[..j], bins, b) + (if BucketIndex(scores[j], bins) == b then 1 else 0))
  {
    assert scores[..j + 1][..j] == scores[..j];
  }

  /** The counts of all the buckets, in bucket order. */
  function Counts(scores: seq<real>, bins: nat): (c: seq<nat>)
    requires bins >= 1
    ensures |c| == bins
    ensures forall b :: 0 <= b < bins ==> c[b] == CountIn(scores, bins, b)
  {
    seq(bins, b requires 0 <= b < bins => CountIn(scores, bins, b))
  }

  function Total(c: seq<nat>): nat {
    if c == [] then 0 else Total(c[..|c| - 1]) + c[|c| - 1]
  }

  /** Adding one to an entry adds one to the total. */
  lemma {:induction false} TotalIncrement(c: seq<nat>, k: nat)
    requires k < |c|
    ensures Total(c[k := c[k] + 1]) == Total(c) + 1
    decreases |c|
  {
    var c' := c[k := c[k] + 1];
    if k < |c| - 1 {
      assert c'[..|c| - 1] == c[..|c| - 1][k := c[k] + 1];
      TotalIncrement(c[..|c| - 1], k);
    } else {
      assert c'[..|c| - 1] == c[..|c| - 1];
    }
  }

  /** Every score is counted exactly once: the counts add up to the number of scores. */
  lemma {:induction false} CountsAddUp(scores: seq<real>, bins: nat)
    requires bins >= 1
    ensures Total(Counts(scores, bins)) == |scores|
    decreases |scores|
  {
    if scores == [] {
      ZeroTotal(Counts(scores, bins));
    } else {
      var init := scores[..|scores| - 1];
      var k := BucketIndex(scores[|scores| - 1], bins);
      CountsAddUp(init, bins);
      assert Counts(scores, bins) == Counts(init, bins)[k := Counts(init, bins)[k] + 1];
      TotalIncrement(Counts(init, bins), k);
    }
  }

  lemma {:induction false} ZeroTotal(c: seq<nat>)
    requires forall b :: 0 <= b < |c| ==> c[b] == 0
    ensures Total(c) == 0
    decreases |c|
  {
    if c != [] {
      ZeroTotal(c[..|c| - 1]);
    }
  }

  /** The histogram the endpoint promises: bucket `i` spans `i / bins` to
      `(i + 1) / bins` and counts the scores whose bucket is `i`. */
  function HistogramOf(scores: seq<real>, bins: nat): (h: seq<Bucket>)
    requires bins >= 1
    ensures |h| == bins
    ensures forall i :: 0 <= i < bins ==> h[i] == Bucket(From(i, bins), From(i + 1, bins), CountIn(scores, bins, i))
  {
    seq(bins, i requires 0 <= i < bins => Bucket(From(i, bins), From(i + 1, bins), CountIn(scores, bins, i)))
  }

  /** The buckets tile [0, 1]: the first starts at 0, each starts where the
      previous one ends, and the last ends at 1. */
  lemma BucketsTile(scores: seq<real>, bins: nat)
    requires bins >= 1
    ensures HistogramOf(scores, bins)[0].from == 0.0
    ensures HistogramOf(scores, bins)[bins - 1].to == 1.0
    ensures forall i :: 0 < i < bins ==> HistogramOf(scores, bins)[i].from == HistogramOf(scores, bins)[i - 1].to
  {
  }

  /** The counting loop: a list of `bins` zeros, one increment per score at
      the score's bucket. */
  method CountBuckets(scores: seq<real>, bins: nat) returns (counts: array<nat>)
    requires bins >= 1
    ensures fresh(counts)
    ensures counts[..] == Counts(scores, bins)
  {
    counts := new nat[bins](_ => 0);
    var j := 0;
    while j < |scores|
      invariant 0 <= j <= |scores|
      invariant counts.Length == bins
      invariant forall b :: 0 <= b < bins ==> counts[b] == CountIn(scores[..j], bins, b)
    {
      CountInExtend(scores, bins, j);
      var idx := BucketIndex(scores[j], bins);
      counts[idx] := counts[idx] + 1;
      j := j + 1;
    }
    assert scores[..j] == scores;
  }

  /** `emotion_histogram_distribution`: the `bins` bound first, then the role
      check, then the emotion, then the company's scores for it, bucketed. */
  method EmotionHistogram(caller: User, emotion: string, bins: int,
                          users: seq<User>, videos: seq<Video>, preds: seq<Prediction>)
    returns (r: Result<(string, seq<Bucket>)>)
    ensures !(MIN_BINS <= bins <= MAX_BINS) <==> r == Err(ValidationError)
    ensures MIN_BINS <= bins <= MAX_BINS ==> (caller.role != HR <==> r == Err(FORBIDDEN))
    ensures MIN_BINS <= bins <= MAX_BINS && caller.role == HR ==>
      (SelectEmotion(emotion).None? <==> r == Err(UNSUPPORTED))
    ensures MIN_BINS <= bins <= MAX_BINS && caller.role == HR && SelectEmotion(emotion).Some? ==>
      var e := SelectEmotion(emotion).value;
      r == Ok((e.Name(), HistogramOf(ScoresFor(CompanyPredictions(caller, users, videos, preds), e), bins)))
  {
    if !(MIN_BINS <= bins <= MAX_BINS) {
      return Err(ValidationError);
    }
    var forbidden := AssertHr(caller);
    if forbidden.Some? {
      return Err(forbidden.value);
    }
    var std := SelectEmotion(emotion);
    if std.None? {
      return Err(UNSUPPORTED);
    }
    var rows := CompanyPredictions(caller, users, videos, preds);
    var scores := CollectScores(rows, std.value);
    var counts := CountBuckets(scores, bins);
    var ranges := seq(bins, i requires 0 <= i < bins reads counts =>
      Bucket(From(i, bins), From(i + 1, bins), counts[i]));
    assert ranges == HistogramOf(scores, bins);
    return Ok((std.value.Name(), ranges));
  }
}
