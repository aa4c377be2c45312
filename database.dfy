/** The database session the lifecycle and registry operations change: the
    tables as sequences in insertion order, and the ids the database hands
    out to new rows. The background task list of a request is a separate
    output queue of video ids. */
module Database {
  import opened Text
  import opened Records

  class Store {
    var users: seq<User>
    var companies: seq<Company>
    var videos: seq<Video>
    var predictions: seq<Prediction>
    /** The id the next inserted `Users` row receives. */
    var nextUserId: nat
    /** The id the next inserted `Company` row receives. */
    var nextCompanyId: nat

    /** Video ids are a primary key, every stored id was handed out before,
        and company names are stored lower-cased and pairwise distinct. */
    predicate Valid()
      reads this
    {
      DistinctVideoIds(videos) && CompanyNamesOk(companies) &&
      (forall u :: u in users ==> u.id < nextUserId) &&
      (forall c :: c in companies ==> c.id < nextCompanyId)
    }

    constructor (videos: seq<Video>, predictions: seq<Prediction>)
      requires DistinctVideoIds(videos)
      ensures Valid()
      ensures this.users == [] && this.companies == []
      ensures this.videos == videos && this.predictions == predictions
    {
      this.users := [];
      this.companies := [];
      this.videos := videos;
      this.predictions := predictions;
      this.nextUserId := 0;
      this.nextCompanyId := 0;
    }
  }

  /** Every company name is lower-case and no two companies share a name. */
  predicate CompanyNamesOk(companies: seq<Company>) {
    (forall i :: 0 <= i < |companies| ==> Lower(companies[i].name) == companies[i].name) &&
    (forall i, j :: 0 <= i < j < |companies| ==> companies[i].name != companies[j].name)
  }

  /** FastAPI's `BackgroundTasks`: each task is one call of the processing
      step on the video id it records, run after the response is sent. */
  class TaskQueue {
    var tasks: seq<nat>

    constructor ()
      ensures tasks == []
    {
      tasks := [];
    }

    /** `background_tasks.add_task(process_video_with_ai, video_id, db)` */
    method AddTask(videoId: nat)
      modifies this
      ensures tasks == old(tasks) + [videoId]
    {
      tasks := tasks + [videoId];
    }
  }
}
