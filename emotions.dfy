/** The emotion taxonomy of the HR dashboard: seven standard emotions and the
    synonym table that folds free-text model labels into them. */
module Emotions {
  import opened Common
  import opened Text

  /** The closed analytics vocabulary. */
  datatype Emotion = Stress | Anxiety | Fatigue | Happiness | Neutral | Anger | Surprise {
    /** The key the dashboard reports the emotion under. */
    function Name(): string {
      match this
      case Stress => "stress"
      case Anxiety => "anxiety"
      case Fatigue => "fatigue"
      case Happiness => "happiness"
      case Neutral => "neutral"
      case Anger => "anger"
      case Surprise => "surprise"
    }
  }

  /** `STANDARD_EMOTIONS`, in the dashboard's key order. */
  const STANDARD_EMOTIONS: seq<Emotion> :=
    [Stress, Anxiety, Fatigue, Happiness, Neutral, Anger, Surprise]

  /** `{e: f(e) for e in STANDARD_EMOTIONS}` */
  function ByEmotion(f: Emotion -> real): (m: map<Emotion, real>)
    ensures forall e: Emotion :: e in m && m[e] == f(e)
  {
    forall e: Emotion ensures e in ALL_EMOTIONS { InStandard(e); }
    map e | e in ALL_EMOTIONS :: f(e)
  }

  /** The seven standard emotions as a set. */
  const ALL_EMOTIONS: set<Emotion> := {Stress, Anxiety, Fatigue, Happiness, Neutral, Anger, Surprise}

  /** Two maps that hold every emotion with the same values are equal. */
  lemma MapsAgree<T>(a: map<Emotion, T>, b: map<Emotion, T>)
    requires forall e :: e in a && e in b && a[e] == b[e]
    ensures a == b
  {
  }

  /** The standard list names every emotion. */
  lemma InStandard(e: Emotion)
    ensures e in STANDARD_EMOTIONS && e in ALL_EMOTIONS
  {
    match e
    case Stress =>
    case Anxiety =>
    case Fatigue =>
    case Happiness =>
    case Neutral =>
    case Anger =>
    case Surprise =>
  }

  /** Model label (already stripped and lower-cased) to standard emotion. */
  const SYNONYM_TO_STANDARD: map<string, Emotion> := map[
    "stressed" := Stress,
    "stress" := Stress,
    "anxious" := Anxiety,
    "anxiety" := Anxiety,
    "tired" := Fatigue,
    "fatigue" := Fatigue,
    "happy" := Happiness,
    "happiness" := Happiness,
    "neutral" := Neutral,
    "angry" := Anger,
    "anger" := Anger,
    "surprised" := Surprise,
    "surprise" := Surprise
  ]

  /** `map_emotion`: an empty label maps to nothing; otherwise the stripped,
      lower-cased label is looked up in the synonym table. */
  function MapEmotion(raw: string): (r: Option<Emotion>)
    ensures raw == [] ==> r == None
    ensures raw != [] ==> (r.Some? <==> Lower(Strip(raw)) in SYNONYM_TO_STANDARD)
    ensures r.Some? ==> r.value == SYNONYM_TO_STANDARD[Lower(Strip(raw))]
  {
    if raw == [] then None
    else
      var key := Lower(Strip(raw));
      if key in SYNONYM_TO_STANDARD then Some(SYNONYM_TO_STANDARD[key]) else None
  }

  /** The standard emotion whose name is `name` (`name in STANDARD_EMOTIONS`). */
  function FromName(name: string): (r: Option<Emotion>)
    ensures r.Some? ==> r.value.Name() == name
    ensures r.None? ==> forall e: Emotion :: e.Name() != name
  {
    if name == "stress" then Some(Stress)
    else if name == "anxiety" then Some(Anxiety)
    else if name == "fatigue" then Some(Fatigue)
    else if name == "happiness" then Some(Happiness)
    else if name == "neutral" then Some(Neutral)
    else if name == "anger" then Some(Anger)
    else if name == "surprise" then Some(Surprise)
    else None
  }

  /** Each standard emotion's name is a table key that maps back to it. */
  lemma StandardMapsToItself(e: Emotion)
    ensures MapEmotion(e.Name()) == Some(e)
  {
    var n := e.Name();
    assert n[0] != ' ' && n[|n| - 1] != ' ';
    StripNoSpace(n);
    LowerOfLowerCase(n);
  }

  /** Normalising the name of a normalised label changes nothing. */
  lemma MapEmotionIdempotent(raw: string)
    requires MapEmotion(raw).Some?
    ensures MapEmotion(MapEmotion(raw).value.Name()) == MapEmotion(raw)
  {
    StandardMapsToItself(MapEmotion(raw).value);
  }

  /** Labels that agree after lower-casing normalise alike. */
  lemma MapEmotionIgnoresCase(a: string, b: string)
    requires Lower(a) == Lower(b)
    ensures MapEmotion(a) == MapEmotion(b)
  {
    StripLower(a);
    StripLower(b);
  }

  /** Whitespace around a label does not change its normalisation. */
  lemma MapEmotionIgnoresSurroundingSpace(p: string, raw: string, q: string)
    requires AllSpace(p) && AllSpace(q)
    ensures MapEmotion(p + raw + q) == MapEmotion(raw)
  {
    StripSurrounded(p, raw, q);
    if raw == [] {
      assert Strip(raw) == [];
    }
  }
}
