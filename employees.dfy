/** The employee roster and employee history endpoints of the HR dashboard:
    per employee, the predictions of a video folded into a map keyed by
    standard emotion names, and the top emotion of that map. */
module Employees {
  import opened Common
  import opened Text
  import opened Records
  import opened PyDict
  import opened Emotions
  import opened CompanyScope
  import opened AiService

  const MIN_PAGE: int := 1
  const MIN_PAGE_SIZE: int := 1
  const MAX_PAGE_SIZE: int := 100
  const NOT_FOUND: HttpError := HttpError(404, "Employee not found")

  // ---------------------------------------------------------------------
  // The standardised prediction map

  /** `std_map[m] = v` for each item whose label maps to a standard emotion,
      in item order: keys are standard names and a later item overwrites an
      earlier one with the same emotion. */
  function StdMap(items: seq<(string, real)>): (d: Dict)
    ensures UniqueKeys(d)
    ensures forall j :: 0 <= j < |d| ==> FromName(d[j].0).Some?
  {
    if items == [] then []
    else
      var d := StdMap(items[..|items| - 1]);
      var last := items[|items| - 1];
      match MapEmotion(last.0)
      case Some(e) =>
        StandardName(e);
        Put(d, e.Name(), last.1)
      case None => d
  }

  lemma StandardName(e: Emotion)
    ensures FromName(e.Name()) == Some(e)
  {
  }

  /** The score of the last item whose label maps to `e`. */
  function LastMapped(items: seq<(string, real)>, e: Emotion): Option<real> {
    if items == [] then None
    else if MapEmotion(items[|items| - 1].0) == Some(e) then Some(items[|items| - 1].1)
    else LastMapped(items[..|items| - 1], e)
  }

  /** Each standard emotion holds the score of the last item that maps to
      it, and is absent when no item maps to it. */
  lemma {:induction false} StdMapGet(items: seq<(string, real)>, e: Emotion)
    ensures Get(StdMap(items), e.Name()) == LastMapped(items, e)
    decreases |items|
  {
    if items != [] {
      var init := items[..|items| - 1];
      var last := items[|items| - 1];
      StdMapGet(init, e);
      match MapEmotion(last.0)
      case Some(e') =>
        assert StdMap(items) == Put(StdMap(init), e'.Name(), last.1);
        if e' != e {
          NamesDistinct(e, e');
        }
      case None =>
    }
  }

  lemma NamesDistinct(a: Emotion, b: Emotion)
    requires a != b
    ensures a.Name() != b.Name()
  {
    StandardName(a);
    StandardName(b);
  }

  /** The loop building `std_map` (or `pred_map` in the history). */
  method Standardize(items: seq<(string, real)>) returns (d: Dict)
    ensures d == StdMap(items)
  {
    d := [];
    var i := 0;
    while i < |items|
      invariant 0 <= i <= |items|
      invariant d == StdMap(items[..i])
    {
      assert items[..i + 1][..i] == items[..i];
      var m := MapEmotion(items[i].0);
      if m.Some? {
        d := Put(d, m.value.Name(), items[i].1);
      }
      i := i + 1;
    }
    assert items[..i] == items;
  }

  // ---------------------------------------------------------------------
  // Orderings the queries ask the database for

  predicate NewestFirst(vs: seq<Video>) {
    forall i, j :: 0 <= i < j < |vs| ==> vs[i].uploadTime >= vs[j].uploadTime
  }

  /** Places `v` after every video at least as recent. */
  function InsertByTime(s: seq<Video>, v: Video): seq<Video> {
    if s == [] then [v]
    else if s[0].uploadTime >= v.uploadTime then [s[0]] + InsertByTime(s[1..], v)
    else [v] + s
  }

  lemma {:induction false} InsertByTimePerm(s: seq<Video>, v: Video)
    ensures multiset(InsertByTime(s, v)) == multiset(s) + multiset{v}
    decreases |s|
  {
    if s != [] && s[0].uploadTime >= v.uploadTime {
      InsertByTimePerm(s[1..], v);
      assert s == [s[0]] + s[1..];
    }
  }

  lemma {:induction false} InsertByTimeSorted(s: seq<Video>, v: Video)
    requires NewestFirst(s)
    ensures NewestFirst(InsertByTime(s, v))
    decreases |s|
  {
    if s != [] && s[0].uploadTime >= v.uploadTime {
      var t := InsertByTime(s[1..], v);
      InsertByTimeSorted(s[1..], v);
      InsertByTimePerm(s[1..], v);
      forall x | x in t ensures s[0].uploadTime >= x.uploadTime {
        assert x in multiset(t);
      }
      NewestFirstCons(s[0], t);
    }
  }

  /** A video at least as recent as every video of a sorted list may lead it. */
  lemma NewestFirstCons(h: Video, t: seq<Video>)
    requires NewestFirst(t)
    requires forall x :: x in t ==> h.uploadTime >= x.uploadTime
    ensures NewestFirst([h] + t)
  {
    var r := [h] + t;
    forall i, j | 0 <= i < j < |r| ensures r[i].uploadTime >= r[j].uploadTime {
      if i == 0 {
        assert r[j] == t[j - 1];
      } else {
        assert r[i] == t[i - 1] && r[j] == t[j - 1];
      }
    }
  }

  /** `order_by(Video.upload_timestamp.desc())`, ties in store order. */
  function ByTimeDesc(vs: seq<Video>): seq<Video> {
    if vs == [] then [] else InsertByTime(ByTimeDesc(vs[..|vs| - 1]), vs[|vs| - 1])
  }

  /** The query's ordering holds the same videos, newest first. */
  lemma {:induction false} ByTimeDescSorts(vs: seq<Video>)
    ensures multiset(ByTimeDesc(vs)) == multiset(vs)
    ensures NewestFirst(ByTimeDesc(vs))
    decreases |vs|
  {
    if vs != [] {
      var init := vs[..|vs| - 1];
      ByTimeDescSorts(init);
      InsertByTimePerm(ByTimeDesc(init), vs[|vs| - 1]);
      InsertByTimeSorted(ByTimeDesc(init), vs[|vs| - 1]);
      assert vs == init + [vs[|vs| - 1]];
    }
  }

  predicate ByUsername(us: seq<User>) {
    forall i, j :: 0 <= i < j < |us| ==> LexLe(us[i].username, us[j].username)
  }

  /** Places `u` after every user whose name does not sort after it. */
  function InsertByName(s: seq<User>, u: User): seq<User> {
    if s == [] then [u]
    else if LexLe(s[0].username, u.username) then [s[0]] + InsertByName(s[1..], u)
    else [u] + s
  }

  lemma {:induction false} InsertByNamePerm(s: seq<User>, u: User)
    ensures multiset(InsertByName(s, u)) == multiset(s) + multiset{u}
    decreases |s|
  {
    if s != [] && LexLe(s[0].username, u.username) {
      InsertByNamePerm(s[1..], u);
      assert s == [s[0]] + s[1..];
    }
  }

  lemma {:induction false} InsertByNameSorted(s: seq<User>, u: User)
    requires ByUsername(s)
    ensures ByUsername(InsertByName(s, u))
    decreases |s|
  {
    if s == [] {
    } else if LexLe(s[0].username, u.username) {
      var t := InsertByName(s[1..], u);
      InsertByNameSorted(s[1..], u);
      InsertByNamePerm(s[1..], u);
      forall x | x in t ensures LexLe(s[0].username, x.username) {
        assert x in multiset(t);
        if x != u {
          assert x in multiset(s[1..]);
          var k :| 0 <= k < |s[1..]| && s[1..][k] == x;
          assert s[k + 1] == x;
        }
      }
      ByUsernameCons(s[0], t);
    } else {
      LexLeTotal(s[0].username, u.username);
      forall x | x in s ensures LexLe(u.username, x.username) {
        var k :| 0 <= k < |s| && s[k] == x;
        if k > 0 {
          LexLeTransitive(u.username, s[0].username, x.username);
        }
      }
      ByUsernameCons(u, s);
    }
  }

  /** A user whose name sorts before every name of a sorted list may lead it. */
  lemma ByUsernameCons(h: User, t: seq<User>)
    requires ByUsername(t)
    requires forall x :: x in t ==> LexLe(h.username, x.username)
    ensures ByUsername([h] + t)
  {
    var r := [h] + t;
    forall i, j | 0 <= i < j < |r| ensures LexLe(r[i].username, r[j].username) {
      if i == 0 {
        assert r[j] == t[j - 1];
      } else {
        assert r[i] == t[i - 1] && r[j] == t[j - 1];
      }
    }
  }

  /** `order_by(Users.username.asc())`, ties in store order. */
  function SortByUsername(us: seq<User>): seq<User> {
    if us == [] then [] else InsertByName(SortByUsername(us[..|us| - 1]), us[|us| - 1])
  }

  /** The query's ordering holds the same users, in username order. */
  lemma {:induction false} SortByUsernameSorts(us: seq<User>)
    ensures multiset(SortByUsername(us)) == multiset(us)
    ensures ByUsername(SortByUsername(us))
    decreases |us|
  {
    if us != [] {
      var init := us[..|us| - 1];
      SortByUsernameSorts(init);
      InsertByNamePerm(SortByUsername(init), us[|us| - 1]);
      InsertByNameSorted(SortByUsername(init), us[|us| - 1]);
      assert us == init + [us[|us| - 1]];
    }
  }

  // ---------------------------------------------------------------------
  // employee_detail

  /** One entry of an employee's history. */
  datatype HistoryEntry = HistoryEntry(
    videoId: nat,
    uploadedAt: int,
    isProcessed: bool,
    predictions: Dict,
    topEmotion: Option<string>,
    topScore: Option<real>)

  datatype EmployeeHistory = EmployeeHistory(userId: nat, username: string, history: seq<HistoryEntry>)

  /** `filter(Users.user_id == id, Users.company_id == company).first()` */
  function FindEmployee(users: seq<User>, id: nat, company: Option<nat>): (r: Option<User>)
    ensures r.Some? ==> r.value in users && r.value.id == id && r.value.companyId == company
    ensures r.None? ==> forall u :: u in users ==> !(u.id == id && u.companyId == company)
  {
    if users == [] then None
    else if users[0].id == id && users[0].companyId == company then Some(users[0])
    else FindEmployee(users[1..], id, company)
  }

  /** The videos of `owner`, in store order. */
  function VideosOf(videos: seq<Video>, owner: nat): (r: seq<Video>)
    ensures forall v :: v in r <==> v in videos && v.owner == owner
  {
    if videos == [] then []
    else VideosOf(videos[..|videos| - 1], owner) + (if videos[|videos| - 1].owner == owner then [videos[|videos| - 1]] else [])
  }

  /** The history entry of video `v`. Its top emotion is the expression
      `compute_derived_fields` evaluates, written out again in the endpoint. */
  function EntryOf(v: Video, preds: seq<Prediction>): HistoryEntry {
    var d := StdMap(Items(PredictionsOf(preds, v.id)));
    var top := ComputeDerivedFields(d);
    HistoryEntry(v.id, v.uploadTime, v.isProcessed, d, top.0, top.1)
  }

  /** The history entries of `vs`, in order. */
  function EntriesOf(vs: seq<Video>, preds: seq<Prediction>): (r: seq<HistoryEntry>)
    ensures |r| == |vs|
    ensures forall k :: 0 <= k < |vs| ==> r[k] == EntryOf(vs[k], preds)
  {
    if vs == [] then []
    else EntriesOf(vs[..|vs| - 1], preds) + [EntryOf(vs[|vs| - 1], preds)]
  }

  /** The loop body of `employee_detail` for one video. */
  method BuildEntry(v: Video, preds: seq<Prediction>) returns (entry: HistoryEntry)
    ensures entry == EntryOf(v, preds)
  {
    var d := Standardize(Items(PredictionsOf(preds, v.id)));
    var top := ComputeDerivedFields(d);
    entry := HistoryEntry(v.id, v.uploadTime, v.isProcessed, d, top.0, top.1);
  }

  /** `employee_detail`: the role check, then the employee of the caller's
      company with that id, then one entry per video, newest first. */
  method EmployeeDetail(caller: User, employeeId: nat, users: seq<User>, videos: seq<Video>, preds: seq<Prediction>)
    returns (r: Result<EmployeeHistory>)
    ensures caller.role != HR <==> r == Err(FORBIDDEN)
    ensures caller.role == HR ==> (FindEmployee(users, employeeId, caller.companyId).None? <==> r == Err(NOT_FOUND))
    ensures caller.role == HR && FindEmployee(users, employeeId, caller.companyId).Some? ==>
      var emp := FindEmployee(users, employeeId, caller.companyId).value;
      var vs := ByTimeDesc(VideosOf(videos, emp.id));
      r == Ok(EmployeeHistory(emp.id, emp.username, EntriesOf(vs, preds)))
  {
    var forbidden := AssertHr(caller);
    if forbidden.Some? {
      return Err(forbidden.value);
    }
    var found := FindEmployee(users, employeeId, caller.companyId);
    if found.None? {
      return Err(NOT_FOUND);
    }
    var emp := found.value;
    var vs := ByTimeDesc(VideosOf(videos, emp.id));
    var history := BuildHistory(vs, preds);
    return Ok(EmployeeHistory(emp.id, emp.username, history));
  }

  /** The loop of `employee_detail`: one entry per video, in the given order. */
  method BuildHistory(vs: seq<Video>, preds: seq<Prediction>) returns (history: seq<HistoryEntry>)
    ensures history == EntriesOf(vs, preds)
  {
    history := [];
    var i := 0;
    while i < |vs|
      invariant 0 <= i <= |vs|
      invariant history == EntriesOf(vs[..i], preds)
    {
      assert vs[..i + 1][..i] == vs[..i];
      var entry := BuildEntry(vs[i], preds);
      history := history + [entry];
      i := i + 1;
    }
    assert vs[..i] == vs;
  }

  /** The history lists exactly the employee's videos, newest first. */
  lemma HistoryCoversVideos(videos: seq<Video>, owner: nat)
    ensures multiset(ByTimeDesc(VideosOf(videos, owner))) == multiset(VideosOf(videos, owner))
    ensures NewestFirst(ByTimeDesc(VideosOf(videos, owner)))
    ensures forall v :: v in ByTimeDesc(VideosOf(videos, owner)) <==> v in videos && v.owner == owner
  {
    var s := ByTimeDesc(VideosOf(videos, owner));
    ByTimeDescSorts(VideosOf(videos, owner));
    forall v ensures v in s <==> v in VideosOf(videos, owner) {
      assert v in s <==> v in multiset(s);
    }
  }

  // ---------------------------------------------------------------------
  // list_employees

  /** One item of the roster. */
  datatype RosterItem = RosterItem(
    userId: nat,
    username: string,
    email: Option<string>,
    role: string,
    lastVideoId: Option<nat>,
    lastPrediction: Option<Dict>,
    topEmotion: Option<string>,
    topScore: Option<real>)

  datatype Roster = Roster(total: nat, page: int, pageSize: int, items: seq<RosterItem>)

  /** The non-HR users of the company, in store order. */
  function CompanyEmployees(users: seq<User>, company: Option<nat>): (r: seq<User>)
    ensures |r| <= |users|
    ensures forall u :: u in r <==> u in users && u.companyId == company && u.role != HR
  {
    if users == [] then []
    else
      var last := users[|users| - 1];
      CompanyEmployees(users[..|users| - 1], company) +
        (if last.companyId == company && last.role != HR then [last] else [])
  }

  /** `.offset(offset).limit(limit)`: at most `limit` items from `offset` on. */
  function Window<T>(s: seq<T>, offset: int, limit: int): (r: seq<T>)
    requires offset >= 0 && limit >= 1
    ensures |r| <= limit
    ensures offset <= |s| ==> r == s[offset..Min(offset + limit, |s|)]
    ensures offset >= |s| ==> r == []
  {
    if offset >= |s| then [] else s[offset..Min(offset + limit, |s|)]
  }

  /** `.offset((page - 1) * page_size).limit(page_size)` */
  function Page<T>(s: seq<T>, page: int, pageSize: int): (r: seq<T>)
    requires page >= 1 && pageSize >= 1
    ensures |r| <= pageSize
    ensures (page - 1) * pageSize <= |s| ==> r == s[(page - 1) * pageSize..Min((page - 1) * pageSize + pageSize, |s|)]
    ensures (page - 1) * pageSize >= |s| ==> r == []
  {
    Window(s, (page - 1) * pageSize, pageSize)
  }

  /** A window of a list holds some of its items, in the list's order. */
  lemma WindowItems<T>(s: seq<T>, offset: int, limit: int)
    requires offset >= 0 && limit >= 1
    ensures forall k :: 0 <= k < |Window(s, offset, limit)| ==>
      offset + k < |s| && Window(s, offset, limit)[k] == s[offset + k]
  {
    var w := Window(s, offset, limit);
    if offset < |s| {
      var hi := Min(offset + limit, |s|);
      assert w == s[offset..hi];
      forall k | 0 <= k < |w| ensures offset + k < |s| && w[k] == s[offset + k] {
        assert offset + k < hi;
      }
    } else {
      assert |w| == 0;
    }
  }

  /** A window of a list sorted by username is sorted by username. */
  lemma ByUsernameWindow(s: seq<User>, offset: int, limit: int)
    requires offset >= 0 && limit >= 1 && ByUsername(s)
    ensures ByUsername(Window(s, offset, limit))
    ensures forall u :: u in Window(s, offset, limit) ==> u in s
  {
    var w := Window(s, offset, limit);
    WindowItems(s, offset, limit);
    forall i, j | 0 <= i < j < |w| ensures LexLe(w[i].username, w[j].username) {
      assert w[i] == s[offset + i] && w[j] == s[offset + j];
    }
    forall u | u in w ensures u in s {
      var k :| 0 <= k < |w| && w[k] == u;
      assert s[offset + k] == u;
    }
  }

  /** Two consecutive windows cover the stretch they span without overlap. */
  lemma WindowsTile<T>(s: seq<T>, offset: int, limit: int)
    requires offset >= 0 && limit >= 1 && offset <= |s|
    ensures Window(s, offset, limit) + Window(s, offset + limit, limit) == s[offset..Min(offset + 2 * limit, |s|)]
  {
    var b := offset + limit;
    if b >= |s| {
      assert Window(s, b, limit) == [];
      assert Window(s, offset, limit) == s[offset..|s|];
    } else {
      var m := Min(b + limit, |s|);
      assert Window(s, offset, limit) == s[offset..b];
      assert Window(s, b, limit) == s[b..m];
      assert s[offset..b] + s[b..m] == s[offset..m];
    }
  }

  /** The offsets of consecutive pages lie `page_size` apart. */
  lemma PageOffsets(page: int, pageSize: int)
    requires page >= 1 && pageSize >= 1
    ensures (page - 1) * pageSize >= 0
    ensures (page + 1 - 1) * pageSize == (page - 1) * pageSize + pageSize
    ensures (page + 1) * pageSize == (page - 1) * pageSize + 2 * pageSize
  {
  }

  function Min(a: int, b: int): int {
    if a <= b then a else b
  }

  /** The processed videos of `owner`, newest first; the first one is the roster's last video. */
  function LatestProcessed(videos: seq<Video>, owner: nat): (r: Option<Video>)
    ensures r.Some? ==> r.value in videos && r.value.owner == owner && r.value.isProcessed
    ensures r.Some? ==> forall v :: v in videos && v.owner == owner && v.isProcessed ==> v.uploadTime <= r.value.uploadTime
    ensures r.None? ==> forall v :: v in videos ==> !(v.owner == owner && v.isProcessed)
  {
    var s := ByTimeDesc(ProcessedOf(videos, owner));
    ByTimeDescSorts(ProcessedOf(videos, owner));
    if s == [] then
      assert forall v :: v in videos && v.owner == owner && v.isProcessed ==> v in multiset(ProcessedOf(videos, owner));
      None
    else
      assert s[0] in multiset(ProcessedOf(videos, owner));
      forall v | v in videos && v.owner == owner && v.isProcessed ensures v.uploadTime <= s[0].uploadTime {
        assert v in multiset(s);
      }
      Some(s[0])
  }

  /** The processed videos of `owner`, in store order. */
  function ProcessedOf(videos: seq<Video>, owner: nat): (r: seq<Video>)
    ensures forall v :: v in r <==> v in videos && v.owner == owner && v.isProcessed
  {
    if videos == [] then []
    else
      var last := videos[|videos| - 1];
      ProcessedOf(videos[..|videos| - 1], owner) + (if last.owner == owner && last.isProcessed then [last] else [])
  }

  /** The roster item of `emp`: the latest processed video, and when it has
      predictions the standardised map of its `{label: score}` dict and its top emotion. */
  function ItemOf(emp: User, videos: seq<Video>, preds: seq<Prediction>): RosterItem {
    match LatestProcessed(videos, emp.id)
    case None => RosterItem(emp.id, emp.username, emp.email, emp.role, None, None, None, None)
    case Some(v) =>
      var ps := PredictionsOf(preds, v.id);
      if ps == [] then RosterItem(emp.id, emp.username, emp.email, emp.role, Some(v.id), None, None, None)
      else
        var std := StdMap(FromItems(Items(ps)));
        var top := ComputeDerivedFields(std);
        RosterItem(emp.id, emp.username, emp.email, emp.role, Some(v.id), Some(std), top.0, top.1)
  }

  /** The loop body of `list_employees` for one employee. */
  method BuildItem(emp: User, videos: seq<Video>, preds: seq<Prediction>) returns (item: RosterItem)
    ensures item == ItemOf(emp, videos, preds)
  {
    var last := LatestProcessed(videos, emp.id);
    if last.None? {
      return RosterItem(emp.id, emp.username, emp.email, emp.role, None, None, None, None);
    }
    var ps := PredictionsOf(preds, last.value.id);
    if ps == [] {
      return RosterItem(emp.id, emp.username, emp.email, emp.role, Some(last.value.id), None, None, None);
    }
    var predMap := FromItems(Items(ps));
    var std := Standardize(predMap);
    var top := ComputeDerivedFields(std);
    return RosterItem(emp.id, emp.username, emp.email, emp.role, Some(last.value.id), Some(std), top.0, top.1);
  }

  /** The roster items of `emps`, in order. */
  function ItemsOf(emps: seq<User>, videos: seq<Video>, preds: seq<Prediction>): (r: seq<RosterItem>)
    ensures |r| == |emps|
    ensures forall k :: 0 <= k < |emps| ==> r[k] == ItemOf(emps[k], videos, preds)
  {
    if emps == [] then []
    else ItemsOf(emps[..|emps| - 1], videos, preds) + [ItemOf(emps[|emps| - 1], videos, preds)]
  }

  /** The page of employees the roster shows. */
  function RosterPage(caller: User, page: int, pageSize: int, users: seq<User>): seq<User>
    requires page >= 1 && pageSize >= 1
  {
    Page(SortByUsername(CompanyEmployees(users, caller.companyId)), page, pageSize)
  }

  /** `list_employees`: the query bounds first, then the role check, then one
      item per employee of the requested page of the company's non-HR users
      sorted by username. */
  method ListEmployees(caller: User, page: int, pageSize: int,
                       users: seq<User>, videos: seq<Video>, preds: seq<Prediction>)
    returns (r: Result<Roster>)
    ensures !(page >= MIN_PAGE && MIN_PAGE_SIZE <= pageSize <= MAX_PAGE_SIZE) <==> r == Err(ValidationError)
    ensures page >= MIN_PAGE && MIN_PAGE_SIZE <= pageSize <= MAX_PAGE_SIZE ==> (caller.role != HR <==> r == Err(FORBIDDEN))
    ensures page >= MIN_PAGE && MIN_PAGE_SIZE <= pageSize <= MAX_PAGE_SIZE && caller.role == HR ==>
      var shown := RosterPage(caller, page, pageSize, users);
      r == Ok(Roster(|CompanyEmployees(users, caller.companyId)|, page, pageSize, ItemsOf(shown, videos, preds)))
  {
    if !(page >= MIN_PAGE && MIN_PAGE_SIZE <= pageSize <= MAX_PAGE_SIZE) {
      return Err(ValidationError);
    }
    var forbidden := AssertHr(caller);
    if forbidden.Some? {
      return Err(forbidden.value);
    }
    var employees := CompanyEmployees(users, caller.companyId);
    var total := |employees|;
    var shown := Page(SortByUsername(employees), page, pageSize);
    var items: seq<RosterItem> := [];
    var i := 0;
    while i < |shown|
      invariant 0 <= i <= |shown|
      invariant items == ItemsOf(shown[..i], videos, preds)
    {
      assert shown[..i + 1][..i] == shown[..i];
      var item := BuildItem(shown[i], videos, preds);
      items := items + [item];
      i := i + 1;
    }
    assert shown[..i] == shown;
    return Ok(Roster(total, page, pageSize, items));
  }

  /** The page holds at most `page_size` employees of the caller's company,
      none of them HR, in username order. */
  lemma RosterPageShape(caller: User, page: int, pageSize: int, users: seq<User>)
    requires page >= 1 && pageSize >= 1
    ensures |RosterPage(caller, page, pageSize, users)| <= pageSize
    ensures ByUsername(RosterPage(caller, page, pageSize, users))
    ensures forall u :: u in RosterPage(caller, page, pageSize, users) ==>
      u in users && u.companyId == caller.companyId && u.role != HR
  {
    var sorted := SortByUsername(CompanyEmployees(users, caller.companyId));
    SortByUsernameSorts(CompanyEmployees(users, caller.companyId));
    PageOffsets(page, pageSize);
    ByUsernameWindow(sorted, (page - 1) * pageSize, pageSize);
    forall u | u in sorted ensures u in CompanyEmployees(users, caller.companyId) {
      assert u in multiset(sorted);
    }
  }

  /** Consecutive pages do not overlap and leave no gap: page `p + 1` starts
      where page `p` ends in the sorted list. */
  lemma PagesTile<T>(s: seq<T>, page: int, pageSize: int)
    requires page >= 1 && pageSize >= 1 && (page - 1) * pageSize <= |s|
    ensures Page(s, page, pageSize) + Page(s, page + 1, pageSize) == s[(page - 1) * pageSize..Min((page + 1) * pageSize, |s|)]
  {
    PageOffsets(page, pageSize);
    WindowsTile(s, (page - 1) * pageSize, pageSize);
  }
}
