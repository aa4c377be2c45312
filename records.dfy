/** The rows the core reads and writes, with the fields the logic uses.
    Identifiers are numbers; timestamps and dates are day or tick numbers. */
module Records {
  import opened Common

  const HR: string := "hr"
  const EMPLOYEE: string := "employee"

  /** A `Users` row. `companyId` and `email` are NULL unless some operation set them. */
  datatype User = User(
    id: nat,
    username: string,
    hashedPassword: string,
    role: string,
    companyId: Option<nat>,
    email: Option<string>)

  /** A `Company` row; the name is stored lower-cased. */
  datatype Company = Company(id: nat, name: string)

  /** A `Video` row: owner, storage locator handed to the model, upload time, processed flag. */
  datatype Video = Video(id: nat, owner: nat, url: string, uploadTime: int, isProcessed: bool)

  /** A `Prediction` row: one label and score the model gave a video, and the day it was stored. */
  datatype Prediction = Prediction(videoId: nat, emotionLabel: string, score: real, createdDay: int)

  predicate DistinctVideoIds(videos: seq<Video>) {
    forall i, j :: 0 <= i < j < |videos| ==> videos[i].id != videos[j].id
  }

  /** `query(Video).filter(Video.video_id == id).first()`, as a position. */
  function VideoIndex(videos: seq<Video>, id: nat): (r: Option<nat>)
    ensures r.None? <==> forall j :: 0 <= j < |videos| ==> videos[j].id != id
    ensures r.Some? ==> r.value < |videos| && videos[r.value].id == id
    ensures r.Some? ==> forall j :: 0 <= j < r.value ==> videos[j].id != id
  {
    if videos == [] then None
    else if videos[0].id == id then Some(0)
    else match VideoIndex(videos[1..], id)
      case None => None
      case Some(i) => Some(i + 1)
  }

  /** `query(Prediction).filter(Prediction.video_id == id).all()` */
  function PredictionsOf(preds: seq<Prediction>, id: nat): (r: seq<Prediction>)
    ensures forall p :: p in r ==> p in preds && p.videoId == id
    ensures forall p :: p in preds && p.videoId == id ==> p in r
  {
    if preds == [] then []
    else
      var last := preds[|preds| - 1];
      PredictionsOf(preds[..|preds| - 1], id) + (if last.videoId == id then [last] else [])
  }

  /** The (label, score) items of prediction rows, in row order. */
  function Items(preds: seq<Prediction>): (r: seq<(string, real)>)
    ensures |r| == |preds|
    ensures forall j :: 0 <= j < |preds| ==> r[j] == (preds[j].emotionLabel, preds[j].score)
  {
    seq(|preds|, j requires 0 <= j < |preds| => (preds[j].emotionLabel, preds[j].score))
  }

  /** The ids of `vs`, in order. */
  function Ids(vs: seq<Video>): (r: seq<nat>)
    ensures |r| == |vs|
    ensures forall j :: 0 <= j < |vs| ==> r[j] == vs[j].id
  {
    seq(|vs|, j requires 0 <= j < |vs| => vs[j].id)
  }
}
