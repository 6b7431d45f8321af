/** The catalogue of apps and tasks the client shows: the history built from
    completed recordings, scores attached from submissions, the merge with
    the apps the API lists, the "seen plus a few unseen" selection, and the
    limits on the gym list.  Network and Tauri calls appear as their results;
    shuffles are arbitrary permutations. */
module Forge {
  import opened Wrappers
  import opened Text

  datatype Quest = Quest(title: string, app: string, iconUrl: string)

  /** A recording as `list_recordings` reports it. */
  datatype RecordingInfo = RecordingInfo(id: string, status: string, quest: Option<Quest>)

  datatype ForgeTask = ForgeTask(prompt: string, completed: Option<bool>, recordingId: Option<string>, score: Option<int>)

  datatype PoolRef = PoolRef(id: string, name: string)

  datatype ForgeApp = ForgeApp(
    name: string,
    domain: string,
    description: string,
    categories: seq<string>,
    tasks: seq<ForgeTask>,
    pool: PoolRef,
    seen: Option<bool>)

  /** A submission: the id its metadata carries and its clamped score. */
  datatype Submission = Submission(metaId: Option<string>, clampedScore: Option<int>)

  /** A JavaScript `Map` from app name to app: the entries and the order in
      which their keys were first set. */
  datatype Catalogue = Catalogue(apps: map<string, ForgeApp>, order: seq<string>)

  const EmptyCatalogue: Catalogue := Catalogue(map[], [])

  /** Keys and insertion order agree, each key once, and each app is filed
      under its own name. */
  ghost predicate Ordered(c: Catalogue) {
    && (forall k :: k in c.apps <==> k in c.order)
    && (forall i, j :: 0 <= i < j < |c.order| ==> c.order[i] != c.order[j])
    && (forall k :: k in c.apps ==> c.apps[k].name == k)
  }

  /** `Array.from(map.values())`. */
  function Values(c: Catalogue): (r: seq<ForgeApp>)
    requires forall i :: 0 <= i < |c.order| ==> c.order[i] in c.apps
    ensures |r| == |c.order| && forall i :: 0 <= i < |r| ==> r[i] == c.apps[c.order[i]]
  {
    seq(|c.order|, i requires 0 <= i < |c.order| => c.apps[c.order[i]])
  }

  /** `map.set(app.name, app)`: a new key goes last, an existing key keeps its place. */
  function SetApp(c: Catalogue, a: ForgeApp): (r: Catalogue)
    ensures r.apps == c.apps[a.name := a]
    ensures a.name in c.apps ==> r.order == c.order
    ensures a.name !in c.apps ==> r.order == c.order + [a.name]
    ensures Ordered(c) ==> Ordered(r)
  {
    Catalogue(c.apps[a.name := a], if a.name in c.apps then c.order else c.order + [a.name])
  }

  // ---------------------------------------------------------------------
  // Domain of a favicon URL.

  const DomainMarker: string := "domain="

  /** `iconUrl.split('domain=')[1].split('&')[0]`; `None` where JavaScript
      throws, because there is no `domain=`. */
  function DomainOf(iconUrl: string): (r: Option<string>)
    ensures r.None? <==> !Contains(iconUrl, DomainMarker)
    ensures r.Some? ==> !Contains(r.value, "&")
  {
    match SplitSecond(iconUrl, DomainMarker)
    case None => None
    case Some(piece) =>
      Some(SplitFirst(piece, "&"))
  }

  /** `IndexFrom` finds an occurrence when no earlier one exists. */
  lemma FirstOccurrence(s: string, pat: string, i: nat)
    requires OccursAt(s, pat, i)
    requires forall j: nat :: j < i ==> !OccursAt(s, pat, j)
    ensures IndexFrom(s, pat, 0) == Some(i)
  {
  }

  /** No character of `domain=` is `&`, and only its last is `=`. */
  lemma MarkerChars()
    ensures forall i :: 0 <= i < |DomainMarker| ==> DomainMarker[i] != '&'
    ensures forall i :: 0 <= i < |DomainMarker| - 1 ==> DomainMarker[i] != '='
  {
    assert DomainMarker == ['d', 'o', 'm', 'a', 'i', 'n', '='];
  }

  /** The first `domain=` of `<prefix>domain=...` is the one after `prefix`. */
  lemma MarkerAfterPrefix(prefix: string, rest: string)
    requires !Contains(prefix, DomainMarker)
    ensures SplitSecond(prefix + DomainMarker + rest, DomainMarker)
            == Some(SplitFirst(rest, DomainMarker))
  {
    var url := prefix + DomainMarker + rest;
    var n := |prefix|;
    assert url[n..n + 7] == DomainMarker;
    forall j: nat | j < n ensures !OccursAt(url, DomainMarker, j) {
      if j + 7 <= n {
        assert prefix[j..j + 7] == url[j..j + 7];
        assert !OccursAt(prefix, DomainMarker, j);
      } else if j + 7 <= |url| {
        assert url[j + 6] == DomainMarker[j + 6 - n];
        assert url[j..j + 7][6] == url[j + 6];
      }
    }
    FirstOccurrence(url, DomainMarker, n);
    assert url[n + 7..] == rest;
  }

  /** The text up to the next `domain=` runs past `d` when `d` holds no
      `domain=` and is followed by nothing or by `&`. */
  lemma PieceCoversDomain(d: string, tail: string)
    requires !Contains(d, DomainMarker)
    requires tail == [] || tail[0] == '&'
    ensures |SplitFirst(d + tail, DomainMarker)| >= |d|
  {
    var rest := d + tail;
    forall k: nat | k < |d| ensures !OccursAt(rest, DomainMarker, k) {
      if k + 7 <= |d| {
        assert rest[k..k + 7] == d[k..k + 7];
        assert !OccursAt(d, DomainMarker, k);
      } else if k + 7 <= |rest| {
        assert rest[|d|] == '&';
        assert rest[k..k + 7][|d| - k] == rest[|d|];
        MarkerChars();
      }
    }
  }

  /** Cutting `d + tail` at its first `&` gives `d` when `d` holds no `&`
      and `tail` is empty or starts with `&`. */
  lemma CutAtAmpersand(d: string, piece: string)
    requires !Contains(d, "&")
    requires d <= piece && (|piece| > |d| ==> piece[|d|] == '&')
    ensures SplitFirst(piece, "&") == d
  {
    var r := SplitFirst(piece, "&");
    forall j: nat | j < |d| ensures !OccursAt(piece, "&", j) {
      assert piece[j..j + 1] == d[j..j + 1];
      assert !OccursAt(d, "&", j);
    }
    if |piece| > |d| {
      assert piece[|d|..|d| + 1] == "&";
      assert OccursAt(piece, "&", |d|);
    }
    assert |r| == |d|;
    assert r == piece[..|r|] && d == piece[..|d|];
  }

  /** A favicon URL of the usual shape, `<prefix>domain=<d>` followed by
      nothing or by `&...`, yields `d`. */
  lemma DomainOfFavicon(prefix: string, d: string, tail: string)
    requires !Contains(prefix, DomainMarker)
    requires !Contains(d, "&") && !Contains(d, DomainMarker)
    requires tail == [] || tail[0] == '&'
    ensures DomainOf(prefix + DomainMarker + d + tail) == Some(d)
  {
    assert prefix + DomainMarker + d + tail == prefix + DomainMarker + (d + tail);
    MarkerAfterPrefix(prefix, d + tail);
    var piece := SplitFirst(d + tail, DomainMarker);
    PieceCoversDomain(d, tail);
    assert piece[..|d|] == (d + tail)[..|d|];
    if |piece| > |d| {
      assert piece[|d|] == (d + tail)[|d|];
    }
    CutAtAmpersand(d, piece);
  }

  // ---------------------------------------------------------------------
  // The history: apps built from completed recordings.

  /** Only completed recordings of a quest count. */
  predicate Contributes(r: RecordingInfo) {
    r.status == "completed" && r.quest.Some?
  }

  predicate HasPrompt(tasks: seq<ForgeTask>, prompt: string) {
    exists i :: 0 <= i < |tasks| && tasks[i].prompt == prompt
  }

  predicate UniquePrompts(tasks: seq<ForgeTask>) {
    forall i, j :: 0 <= i < j < |tasks| ==> tasks[i].prompt != tasks[j].prompt
  }

  /** The app a quest first opens in the history. */
  function HistoryApp(q: Quest, domain: string): ForgeApp {
    ForgeApp(q.app, domain, "", [], [], PoolRef("", ""), Some(true))
  }

  /** The task a completed recording contributes. */
  function HistoryTask(r: RecordingInfo): ForgeTask
    requires Contributes(r)
  {
    ForgeTask(r.quest.value.title, Some(true), Some(r.id), None)
  }

  /** The TypeError raised when `split` is applied to `undefined`.  Its
      wording depends on the JavaScript engine; this is V8's (WebKit's, on
      macOS and Linux, reads differently), so only the fact of the error
      carries over. */
  const SplitError: string := "Cannot read properties of undefined (reading 'split')"

  /** One recording's effect on the history map. */
  function AddRecording(c: Catalogue, r: RecordingInfo): (res: Result<Catalogue>)
    ensures res.Err? <==> Contributes(r) && r.quest.value.app !in c.apps && DomainOf(r.quest.value.iconUrl).None?
    ensures res.Ok? ==> res.value.apps.Keys == c.apps.Keys + (if Contributes(r) then {r.quest.value.app} else {})
    ensures res.Ok? ==> forall k :: k in c.apps && !(Contributes(r) && k == r.quest.value.app) ==>
      res.value.apps[k] == c.apps[k]
  {
    if !Contributes(r) then Ok(c)
    else
      var q := r.quest.value;
      if q.app !in c.apps && DomainOf(q.iconUrl).None? then Err(SplitError)
      else
        var c1 := if q.app in c.apps then c else SetApp(c, HistoryApp(q, DomainOf(q.iconUrl).value));
        var app := c1.apps[q.app];
        if HasPrompt(app.tasks, q.title) then Ok(c1)
        else Ok(Catalogue(c1.apps[q.app := app.(tasks := app.tasks + [HistoryTask(r)])], c1.order))
  }

  /** The history map after the recordings, in order. */
  function History(recs: seq<RecordingInfo>): Result<Catalogue>
    decreases |recs|
  {
    if recs == [] then Ok(EmptyCatalogue)
    else match History(recs[..|recs| - 1])
      case Err(e) => Err(e)
      case Ok(c) => AddRecording(c, recs[|recs| - 1])
  }

  /** The quest of the first completed recording of app `k`. */
  function FirstQuest(recs: seq<RecordingInfo>, k: string): (r: Option<Quest>)
    ensures r.Some? ==> r.value.app == k
    decreases |recs|
  {
    if recs == [] then None
    else
      var before := FirstQuest(recs[..|recs| - 1], k);
      var last := recs[|recs| - 1];
      if before.Some? then before
      else if Contributes(last) && last.quest.value.app == k then last.quest
      else None
  }

  /** Recording `r` is a completed recording of app `k`. */
  predicate OpensApp(r: RecordingInfo, k: string) {
    Contributes(r) && r.quest.value.app == k
  }

  /** `FirstQuest` is the quest of the earliest completed recording of app
      `k`, and there is none exactly when no completed recording is of `k`. */
  lemma {:induction false} FirstQuestFirst(recs: seq<RecordingInfo>, k: string)
    ensures FirstQuest(recs, k).None? <==> forall i :: 0 <= i < |recs| ==> !OpensApp(recs[i], k)
    ensures FirstQuest(recs, k).Some? ==>
      exists i :: 0 <= i < |recs| && OpensApp(recs[i], k) && FirstQuest(recs, k) == recs[i].quest
        && forall j :: 0 <= j < i ==> !OpensApp(recs[j], k)
    decreases |recs|
  {
    if recs != [] {
      var n := |recs| - 1;
      var init := recs[..n];
      FirstQuestFirst(init, k);
      forall j | 0 <= j < n ensures recs[j] == init[j] { }
      if FirstQuest(init, k).Some? {
        var i :| 0 <= i < n && OpensApp(init[i], k) && FirstQuest(init, k) == init[i].quest
          && forall j :: 0 <= j < i ==> !OpensApp(init[j], k);
        assert OpensApp(recs[i], k);
      } else if OpensApp(recs[n], k) {
        assert FirstQuest(recs, k) == recs[n].quest;
      }
    }
  }

  /** The shape of every app of the history, and of its tasks. */
  ghost predicate HistoryShaped(c: Catalogue) {
    && Ordered(c)
    && forall k :: k in c.apps ==>
         && c.apps[k].seen == Some(true) && c.apps[k].description == "" && c.apps[k].categories == []
         && c.apps[k].pool == PoolRef("", "")
         && UniquePrompts(c.apps[k].tasks)
         && forall t :: t in c.apps[k].tasks ==> t.completed == Some(true) && t.recordingId.Some? && t.score.None?
  }

  lemma AddRecordingShaped(c: Catalogue, r: RecordingInfo)
    requires HistoryShaped(c) && AddRecording(c, r).Ok?
    ensures HistoryShaped(AddRecording(c, r).value)
  {
    if Contributes(r) {
      var q := r.quest.value;
      var c1 := if q.app in c.apps then c else SetApp(c, HistoryApp(q, DomainOf(q.iconUrl).value));
      if q.app !in c.apps {
        NewAppShaped(c, HistoryApp(q, DomainOf(q.iconUrl).value));
      }
      if !HasPrompt(c1.apps[q.app].tasks, q.title) {
        NewTaskShaped(c1, q.app, HistoryTask(r));
      }
    }
  }

  /** A fresh history app keeps the history shaped. */
  lemma NewAppShaped(c: Catalogue, a: ForgeApp)
    requires HistoryShaped(c) && a.name !in c.apps
    requires a.seen == Some(true) && a.description == "" && a.categories == [] && a.tasks == []
    requires a.pool == PoolRef("", "")
    ensures HistoryShaped(SetApp(c, a))
  {
  }

  /** A completed task with a new prompt keeps the history shaped. */
  lemma NewTaskShaped(c: Catalogue, k: string, t: ForgeTask)
    requires HistoryShaped(c) && k in c.apps && !HasPrompt(c.apps[k].tasks, t.prompt)
    requires t.completed == Some(true) && t.recordingId.Some? && t.score.None?
    ensures HistoryShaped(Catalogue(c.apps[k := c.apps[k].(tasks := c.apps[k].tasks + [t])], c.order))
  {
    AppendUnique(c.apps[k].tasks, t);
  }

  /** Every app of the history is shaped as a history app: seen, with no
      description or categories, an empty pool, unique prompts, and tasks
      that are completed, carry a recording id and no score. */
  lemma {:induction false} HistoryIsShaped(recs: seq<RecordingInfo>)
    requires History(recs).Ok?
    ensures HistoryShaped(History(recs).value)
    decreases |recs|
  {
    if recs != [] {
      HistoryIsShaped(recs[..|recs| - 1]);
      AddRecordingShaped(History(recs[..|recs| - 1]).value, recs[|recs| - 1]);
    }
  }

  /** The history has one app per app name of a completed recording, and its
      domain comes from the first such recording's icon URL. */
  lemma {:induction false} HistoryKeys(recs: seq<RecordingInfo>)
    requires History(recs).Ok?
    ensures forall k :: k in History(recs).value.apps <==> FirstQuest(recs, k).Some?
    ensures forall k :: k in History(recs).value.apps ==>
      Some(History(recs).value.apps[k].domain) == DomainOf(FirstQuest(recs, k).value.iconUrl)
    decreases |recs|
  {
    if recs != [] {
      var init := recs[..|recs| - 1];
      HistoryKeys(init);
    }
  }

  /** The history fails exactly when some app is first met on a recording
      whose icon URL has no `domain=`. */
  lemma {:induction false} HistoryFails(recs: seq<RecordingInfo>)
    ensures History(recs).Err? <==>
      exists i :: 0 <= i < |recs| && Contributes(recs[i])
        && FirstQuest(recs[..i], recs[i].quest.value.app).None? && DomainOf(recs[i].quest.value.iconUrl).None?
    decreases |recs|
  {
    if recs != [] {
      var n := |recs| - 1;
      var init := recs[..n];
      HistoryFails(init);
      forall i | 0 <= i < n ensures recs[..i] == init[..i] && recs[i] == init[i] { }
      if History(init).Ok? {
        HistoryKeys(init);
        assert recs[..n] == init;
      }
    }
  }

  /** Every completed recording's quest title is a task of its app. */
  lemma {:induction false} HistoryHasTitles(recs: seq<RecordingInfo>)
    requires History(recs).Ok?
    ensures forall i :: 0 <= i < |recs| && Contributes(recs[i]) ==>
      var q := recs[i].quest.value;
      q.app in History(recs).value.apps && HasPrompt(History(recs).value.apps[q.app].tasks, q.title)
    decreases |recs|
  {
    if recs != [] {
      var n := |recs| - 1;
      var init := recs[..n];
      HistoryHasTitles(init);
      var c := History(init).value;
      var c2 := History(recs).value;
      forall i | 0 <= i < n && Contributes(recs[i])
        ensures recs[i].quest.value.app in c2.apps && HasPrompt(c2.apps[recs[i].quest.value.app].tasks, recs[i].quest.value.title)
      {
        assert recs[i] == init[i];
        TitleKept(c, recs[n], recs[i].quest.value);
      }
      if Contributes(recs[n]) {
        var q := recs[n].quest.value;
        var c1 := if q.app in c.apps then c else SetApp(c, HistoryApp(q, DomainOf(q.iconUrl).value));
        if !HasPrompt(c1.apps[q.app].tasks, q.title) {
          var ts := c2.apps[q.app].tasks;
          assert ts[|ts| - 1].prompt == q.title;
        }
      }
    }
  }

  /** A title already present stays present after one more recording. */
  lemma TitleKept(c: Catalogue, r: RecordingInfo, q: Quest)
    requires AddRecording(c, r).Ok?
    requires q.app in c.apps && HasPrompt(c.apps[q.app].tasks, q.title)
    ensures q.app in AddRecording(c, r).value.apps && HasPrompt(AddRecording(c, r).value.apps[q.app].tasks, q.title)
  {
    var c2 := AddRecording(c, r).value;
    var w :| 0 <= w < |c.apps[q.app].tasks| && c.apps[q.app].tasks[w].prompt == q.title;
    assert c2.apps[q.app].tasks[w] == c.apps[q.app].tasks[w];
  }

  /** Every task of the history comes from a completed recording of that app
      with that title. */
  lemma {:induction false} HistoryTasksRecorded(recs: seq<RecordingInfo>)
    requires History(recs).Ok?
    ensures forall k, t :: k in History(recs).value.apps && t in History(recs).value.apps[k].tasks ==>
      exists i :: 0 <= i < |recs| && Contributes(recs[i]) && recs[i].quest.value.app == k
        && t == HistoryTask(recs[i])
    decreases |recs|
  {
    if recs != [] {
      var n := |recs| - 1;
      var init := recs[..n];
      HistoryTasksRecorded(init);
      var c := History(init).value;
      var c2 := History(recs).value;
      forall k, t | k in c2.apps && t in c2.apps[k].tasks
        ensures exists i :: 0 <= i < |recs| && Contributes(recs[i]) && recs[i].quest.value.app == k
                  && t == HistoryTask(recs[i])
      {
        if k in c.apps && t in c.apps[k].tasks {
          var i :| 0 <= i < |init| && Contributes(init[i]) && init[i].quest.value.app == k && t == HistoryTask(init[i]);
          assert recs[i] == init[i];
        } else {
          NewTaskFromLast(c, recs[n], k, t);
        }
      }
    }
  }

  /** A task new to the history is the last recording's. */
  lemma NewTaskFromLast(c: Catalogue, r: RecordingInfo, k: string, t: ForgeTask)
    requires AddRecording(c, r).Ok?
    requires k in AddRecording(c, r).value.apps && t in AddRecording(c, r).value.apps[k].tasks
    requires !(k in c.apps && t in c.apps[k].tasks)
    ensures Contributes(r) && r.quest.value.app == k && t == HistoryTask(r)
  {
  }

  // ---------------------------------------------------------------------
  // Sorting by name.

  predicate NameSorted(s: seq<ForgeApp>) {
    forall i, j :: 0 <= i < j < |s| ==> !Less(s[j].name, s[i].name)
  }

  lemma NotLessTransitive(x: string, y: string, z: string)
    requires !Less(y, x) && !Less(z, y)
    ensures !Less(z, x)
  {
    if Less(z, x) {
      if x != y {
        LessTotal(x, y);
        LessTransitive(z, x, y);
      }
    }
  }

  lemma LessAsymmetric(x: string, y: string)
    requires Less(x, y)
    ensures !Less(y, x)
  {
    if Less(y, x) {
      LessTransitive(x, y, x);
      LessIrreflexive(x);
    }
  }

  function InsertByName(a: ForgeApp, s: seq<ForgeApp>): (r: seq<ForgeApp>)
    ensures multiset(r) == multiset{a} + multiset(s)
    ensures |r| == |s| + 1
  {
    if s == [] then [a]
    else if !Less(s[0].name, a.name) then [a] + s
    else
      assert s == [s[0]] + s[1..];
      [s[0]] + InsertByName(a, s[1..])
  }

  lemma {:induction false} InsertSorted(a: ForgeApp, s: seq<ForgeApp>)
    requires NameSorted(s)
    ensures NameSorted(InsertByName(a, s))
    decreases |s|
  {
    if s != [] {
      var r := InsertByName(a, s);
      if !Less(s[0].name, a.name) {
        forall j | 1 <= j < |r| ensures !Less(r[j].name, r[0].name) {
          LessIrreflexive(s[0].name);
          NotLessTransitive(a.name, s[0].name, s[j - 1].name);
        }
      } else {
        var tail := InsertByName(a, s[1..]);
        InsertSorted(a, s[1..]);
        LessAsymmetric(s[0].name, a.name);
        forall x | x in tail ensures !Less(x.name, s[0].name) {
          assert x in multiset(tail);
          if x != a {
            assert x in multiset(s[1..]);
            var j :| 0 <= j < |s[1..]| && s[1..][j] == x;
            assert s[j + 1] == x;
          }
        }
        forall i, j | 0 <= i < j < |r| ensures !Less(r[j].name, r[i].name) {
          if i == 0 {
            assert r[j] == tail[j - 1];
            assert r[j] in tail;
          } else {
            assert r[i] == tail[i - 1] && r[j] == tail[j - 1];
          }
        }
      }
    }
  }

  /** `apps.sort((a, b) => a.name.localeCompare(b.name))`, with code-point order. */
  function SortByName(s: seq<ForgeApp>): (r: seq<ForgeApp>)
    ensures multiset(r) == multiset(s) && |r| == |s|
    ensures NameSorted(r)
    decreases |s|
  {
    if s == [] then []
    else
      assert s == [s[0]] + s[1..];
      var rest := SortByName(s[1..]);
      InsertSorted(s[0], rest);
      InsertByName(s[0], rest)
  }

  /** The history as a list sorted by app name: each app once, each shaped
      as a history app.  Fails when a new app's icon URL has no `domain=`. */
  method AppsForHistory(recs: seq<RecordingInfo>) returns (r: Result<seq<ForgeApp>>)
    ensures r.Err? <==> History(recs).Err?
    ensures r.Err? ==> r.error == SplitError
    ensures r.Ok? ==>
      && HistoryShaped(History(recs).value)
      && r.value == SortByName(Values(History(recs).value))
      && NameSorted(r.value)
      && (forall k :: (exists i :: 0 <= i < |r.value| && r.value[i].name == k) <==> FirstQuest(recs, k).Some?)
  {
    var apps: map<string, ForgeApp> := map[];
    var order: seq<string> := [];
    var i := 0;
    while i < |recs|
      invariant 0 <= i <= |recs|
      invariant History(recs[..i]) == Ok(Catalogue(apps, order))
    {
      assert recs[..i + 1][..i] == recs[..i];
      var rec := recs[i];
      if rec.status == "completed" && rec.quest.Some? {
        var quest := rec.quest.value;
        if quest.app !in apps {
          var domain := DomainOf(quest.iconUrl);
          if domain.None? {
            HistoryErrSticks(recs, i + 1);
            return Err(SplitError);
          }
          apps := apps[quest.app := HistoryApp(quest, domain.value)];
          order := order + [quest.app];
        }
        var app := apps[quest.app];
        if !HasPrompt(app.tasks, quest.title) {
          apps := apps[quest.app := app.(tasks := app.tasks + [ForgeTask(quest.title, Some(true), Some(rec.id), None)])];
        }
      }
      i := i + 1;
    }
    assert recs[..i] == recs;
    HistoryIsShaped(recs);
    HistoryListNames(recs);
    r := Ok(SortByName(Values(Catalogue(apps, order))));
  }

  /** The sorted history names exactly the apps of completed recordings. */
  lemma HistoryListNames(recs: seq<RecordingInfo>)
    requires History(recs).Ok? && HistoryShaped(History(recs).value)
    ensures var listed := SortByName(Values(History(recs).value));
      forall k :: (exists j :: 0 <= j < |listed| && listed[j].name == k) <==> FirstQuest(recs, k).Some?
  {
    var c := History(recs).value;
    HistoryKeys(recs);
    var values := Values(c);
    forall k ensures (exists j :: 0 <= j < |SortByName(values)| && SortByName(values)[j].name == k) <==> FirstQuest(recs, k).Some? {
      PermutationKeepsNames(values, SortByName(values), k);
      if FirstQuest(recs, k).Some? {
        var p :| 0 <= p < |c.order| && c.order[p] == k;
        assert values[p].name == k;
      }
      if exists p :: 0 <= p < |values| && values[p].name == k {
        var p :| 0 <= p < |values| && values[p].name == k;
        assert c.order[p] in c.apps;
      }
    }
  }

  /** Reordering keeps the names that occur. */
  lemma PermutationKeepsNames(s: seq<ForgeApp>, r: seq<ForgeApp>, k: string)
    requires multiset(s) == multiset(r)
    ensures (exists j :: 0 <= j < |r| && r[j].name == k) <==> (exists p :: 0 <= p < |s| && s[p].name == k)
  {
    if exists p :: 0 <= p < |s| && s[p].name == k {
      var p :| 0 <= p < |s| && s[p].name == k;
      assert s[p] in multiset(r);
      var j :| 0 <= j < |r| && r[j] == s[p];
    }
    if exists j :: 0 <= j < |r| && r[j].name == k {
      var j :| 0 <= j < |r| && r[j].name == k;
      assert r[j] in multiset(s);
      var p :| 0 <= p < |s| && s[p] == r[j];
    }
  }

  /** Once the history fails, later recordings do not change that. */
  lemma {:induction false} HistoryErrSticks(recs: seq<RecordingInfo>, n: nat)
    requires n <= |recs| && History(recs[..n]).Err?
    ensures History(recs).Err?
    decreases |recs| - n
  {
    if n < |recs| {
      assert recs[..n + 1][..n] == recs[..n];
      HistoryErrSticks(recs, n + 1);
    } else {
      assert recs[..n] == recs;
    }
  }

  // ---------------------------------------------------------------------
  // Scores from submissions.

  /** `submissions.find(s => s.meta?.id === id)`, as an index. */
  function FindSubmission(subs: seq<Submission>, id: string, from: nat): (r: Option<nat>)
    ensures r.Some? ==> from <= r.value < |subs| && subs[r.value].metaId == Some(id)
    ensures r.Some? ==> forall j :: from <= j < r.value ==> subs[j].metaId != Some(id)
    ensures r.None? ==> forall j :: from <= j < |subs| ==> subs[j].metaId != Some(id)
    decreases |subs| - from
  {
    if from >= |subs| then None
    else if subs[from].metaId == Some(id) then Some(from)
    else FindSubmission(subs, id, from + 1)
  }

  /** A task with a (non-empty) recording id takes the clamped score of the
      first submission about that recording, when that score is truthy
      (present and non-zero); otherwise the task is unchanged. */
  function AttachScore(t: ForgeTask, subs: seq<Submission>): (r: ForgeTask)
    ensures r.(score := t.score) == t
    ensures r != t ==> t.recordingId.Some? && t.recordingId.value != ""
    ensures t.recordingId.Some? && t.recordingId.value != "" ==>
      match FindSubmission(subs, t.recordingId.value, 0)
      case None => r == t
      case Some(i) =>
        if subs[i].clampedScore.Some? && subs[i].clampedScore.value != 0 then r.score == subs[i].clampedScore
        else r == t
  {
    if t.recordingId.Some? && t.recordingId.value != "" then
      match FindSubmission(subs, t.recordingId.value, 0)
      case None => t
      case Some(i) =>
        var score := subs[i].clampedScore;
        if score.Some? && score.value != 0 then t.(score := score) else t
    else t
  }

  /** `app.tasks.map(...)` with the scores attached. */
  function ScoredApp(a: ForgeApp, subs: seq<Submission>): (r: ForgeApp)
    ensures r.(tasks := a.tasks) == a && |r.tasks| == |a.tasks|
    ensures forall i :: 0 <= i < |a.tasks| ==> r.tasks[i] == AttachScore(a.tasks[i], subs)
  {
    a.(tasks := seq(|a.tasks|, i requires 0 <= i < |a.tasks| => AttachScore(a.tasks[i], subs)))
  }

  // ---------------------------------------------------------------------
  // Merging the apps the API lists.

  /** An API task as the merge files it: not completed. */
  function OpenTask(t: ForgeTask): ForgeTask {
    t.(completed := Some(false))
  }

  /** Appends, in order, each API task whose prompt the growing list lacks. */
  function AddApiTasks(tasks: seq<ForgeTask>, api: seq<ForgeTask>): (r: seq<ForgeTask>)
    ensures tasks <= r
    ensures forall t :: t in r[|tasks|..] ==> t.completed == Some(false)
    ensures forall t :: t in r[|tasks|..] ==>
      exists i :: 0 <= i < |api| && t == OpenTask(api[i]) && !HasPrompt(tasks, api[i].prompt)
    decreases |api|
  {
    if api == [] then tasks
    else
      var before := AddApiTasks(tasks, api[..|api| - 1]);
      var t := api[|api| - 1];
      if HasPrompt(before, t.prompt) then before
      else
        PrefixLacksPrompt(tasks, before, t.prompt);
        var r := before + [OpenTask(t)];
        assert r[|tasks|..] == before[|tasks|..] + [OpenTask(t)];
        r
  }

  /** A prompt missing from a list is missing from each of its prefixes. */
  lemma PrefixLacksPrompt(tasks: seq<ForgeTask>, longer: seq<ForgeTask>, prompt: string)
    requires tasks <= longer && !HasPrompt(longer, prompt)
    ensures !HasPrompt(tasks, prompt)
  {
    forall w | 0 <= w < |tasks| ensures tasks[w].prompt != prompt {
      assert longer[w] == tasks[w];
    }
  }

  /** Appending only new prompts keeps prompts unique, and every API prompt
      ends up among the tasks. */
  lemma {:induction false} AddApiTasksUnique(tasks: seq<ForgeTask>, api: seq<ForgeTask>)
    ensures UniquePrompts(tasks) ==> UniquePrompts(AddApiTasks(tasks, api))
    ensures forall i :: 0 <= i < |api| ==> HasPrompt(AddApiTasks(tasks, api), api[i].prompt)
    decreases |api|
  {
    if api != [] {
      var init := api[..|api| - 1];
      AddApiTasksUnique(tasks, init);
      var before := AddApiTasks(tasks, init);
      var t := api[|api| - 1];
      if !HasPrompt(before, t.prompt) {
        PromptsKept(before, OpenTask(t), init);
        if UniquePrompts(tasks) {
          AppendUnique(before, OpenTask(t));
        }
      }
      forall i | 0 <= i < |api| - 1 ensures api[i] == init[i] { }
    }
  }

  /** Prompts present before one more task is appended stay present. */
  lemma PromptsKept(ts: seq<ForgeTask>, t: ForgeTask, api: seq<ForgeTask>)
    requires forall i :: 0 <= i < |api| ==> HasPrompt(ts, api[i].prompt)
    ensures forall i :: 0 <= i < |api| ==> HasPrompt(ts + [t], api[i].prompt)
    ensures HasPrompt(ts + [t], t.prompt)
  {
    forall i | 0 <= i < |api| ensures HasPrompt(ts + [t], api[i].prompt) {
      var w :| 0 <= w < |ts| && ts[w].prompt == api[i].prompt;
      assert (ts + [t])[w] == ts[w];
    }
    assert (ts + [t])[|ts|] == t;
  }

  /** A task with a new prompt keeps prompts unique. */
  lemma AppendUnique(ts: seq<ForgeTask>, t: ForgeTask)
    requires UniquePrompts(ts) && !HasPrompt(ts, t.prompt)
    ensures UniquePrompts(ts + [t])
  {
    var r := ts + [t];
    forall i, j | 0 <= i < j < |r| ensures r[i].prompt != r[j].prompt {
      if j == |r| - 1 {
        assert ts[i].prompt != t.prompt;
      }
    }
  }

  /** One API app merged into the map: an app already there takes the API's
      domain, description and categories and gains the new prompts; a new
      app is added unseen with every task not completed. */
  function MergeApiApp(c: Catalogue, a: ForgeApp): (r: Catalogue)
    ensures r.apps.Keys == c.apps.Keys + {a.name}
    ensures forall k :: k in c.apps && k != a.name ==> r.apps[k] == c.apps[k]
    ensures Ordered(c) ==> Ordered(r)
  {
    if a.name in c.apps then
      var e := c.apps[a.name];
      Catalogue(c.apps[a.name := e.(domain := a.domain, description := a.description, categories := a.categories,
                                    tasks := AddApiTasks(e.tasks, a.tasks))], c.order)
    else
      SetApp(c, a.(seen := Some(false), tasks := seq(|a.tasks|, i requires 0 <= i < |a.tasks| => OpenTask(a.tasks[i]))))
  }

  /** The map after merging the API apps, in order. */
  function MergeAll(c: Catalogue, api: seq<ForgeApp>): Catalogue
    decreases |api|
  {
    if api == [] then c else MergeApiApp(MergeAll(c, api[..|api| - 1]), api[|api| - 1])
  }

  /** The last API app of name `k`. */
  function LastNamed(api: seq<ForgeApp>, k: string): (r: Option<ForgeApp>)
    ensures r.Some? ==> r.value in api && r.value.name == k
    ensures r.None? ==> forall i :: 0 <= i < |api| ==> api[i].name != k
    decreases |api|
  {
    if api == [] then None
    else if api[|api| - 1].name == k then Some(api[|api| - 1])
    else LastNamed(api[..|api| - 1], k)
  }

  /** Tasks past `old_` stay not completed when they run from `old_` to
      `mid` and from `mid` to `new_` not completed. */
  lemma OpenSuffix(old_: seq<ForgeTask>, mid: seq<ForgeTask>, new_: seq<ForgeTask>)
    requires old_ <= mid <= new_
    requires forall t :: t in mid[|old_|..] ==> t.completed == Some(false)
    requires forall t :: t in new_[|mid|..] ==> t.completed == Some(false)
    ensures forall t :: t in new_[|old_|..] ==> t.completed == Some(false)
  {
    forall t | t in new_[|old_|..] ensures t.completed == Some(false) {
      var w :| |old_| <= w < |new_| && new_[w] == t;
      if w < |mid| {
        assert mid[w] == t && mid[|old_|..][w - |old_|] == t;
      } else {
        assert new_[|mid|..][w - |mid|] == t;
      }
    }
  }

  /** Merging keeps the map ordered and extends its insertion order; its keys
      become the old keys and the names of the API apps. */
  lemma {:induction false} MergeOrdered(c: Catalogue, api: seq<ForgeApp>)
    requires Ordered(c)
    ensures Ordered(MergeAll(c, api)) && c.order <= MergeAll(c, api).order
    ensures forall k :: k in MergeAll(c, api).apps <==> k in c.apps || LastNamed(api, k).Some?
    decreases |api|
  {
    if api != [] {
      MergeOrdered(c, api[..|api| - 1]);
    }
  }

  /** An app that was in the map keeps its `seen` flag and pool, keeps its
      tasks as a prefix (unique prompts stay unique) and gains only tasks
      that are not completed. */
  lemma {:induction false} MergeKept(c: Catalogue, api: seq<ForgeApp>)
    ensures forall k :: k in c.apps ==>
      var r := MergeAll(c, api);
      && k in r.apps
      && r.apps[k].seen == c.apps[k].seen && r.apps[k].pool == c.apps[k].pool
      && c.apps[k].tasks <= r.apps[k].tasks
      && (UniquePrompts(c.apps[k].tasks) ==> UniquePrompts(r.apps[k].tasks))
      && (forall t :: t in r.apps[k].tasks[|c.apps[k].tasks|..] ==> t.completed == Some(false))
    decreases |api|
  {
    if api != [] {
      var init := api[..|api| - 1];
      var a := api[|api| - 1];
      MergeKept(c, init);
      var m := MergeAll(c, init);
      if a.name in c.apps {
        var e := m.apps[a.name];
        AddApiTasksUnique(e.tasks, a.tasks);
        OpenSuffix(c.apps[a.name].tasks, e.tasks, AddApiTasks(e.tasks, a.tasks));
      }
    }
  }

  /** An app the merge added is unseen and has no completed task. */
  lemma {:induction false} MergeAdded(c: Catalogue, api: seq<ForgeApp>)
    ensures forall k :: k in MergeAll(c, api).apps && k !in c.apps ==>
      MergeAll(c, api).apps[k].seen == Some(false)
      && forall t :: t in MergeAll(c, api).apps[k].tasks ==> t.completed == Some(false)
    decreases |api|
  {
    if api != [] {
      var init := api[..|api| - 1];
      var a := api[|api| - 1];
      MergeAdded(c, init);
      var m := MergeAll(c, init);
      if a.name in m.apps && a.name !in c.apps {
        var e := m.apps[a.name];
        OpenSuffix([], e.tasks, AddApiTasks(e.tasks, a.tasks));
      }
    }
  }

  /** An app the API names ends with the last such API app's domain,
      description and categories. */
  lemma {:induction false} MergeOverwrites(c: Catalogue, api: seq<ForgeApp>)
    ensures forall k :: LastNamed(api, k).Some? ==>
      && k in MergeAll(c, api).apps
      && MergeAll(c, api).apps[k].domain == LastNamed(api, k).value.domain
      && MergeAll(c, api).apps[k].description == LastNamed(api, k).value.description
      && MergeAll(c, api).apps[k].categories == LastNamed(api, k).value.categories
    decreases |api|
  {
    if api != [] {
      MergeOverwrites(c, api[..|api| - 1]);
    }
  }

  /** An app the API does not name is left as it was. */
  lemma {:induction false} MergeUntouched(c: Catalogue, api: seq<ForgeApp>)
    ensures forall k :: k in c.apps && LastNamed(api, k).None? ==>
      k in MergeAll(c, api).apps && MergeAll(c, api).apps[k] == c.apps[k]
    decreases |api|
  {
    if api != [] {
      MergeUntouched(c, api[..|api| - 1]);
    }
  }

  /** Merges the API apps into the map, in order, the way the loop over
      `apiApps` with its nested loop over tasks does. */
  method MergeApiApps(c: Catalogue, api: seq<ForgeApp>) returns (r: Catalogue)
    ensures r == MergeAll(c, api)
  {
    var apps := c.apps;
    var order := c.order;
    var i := 0;
    while i < |api|
      invariant 0 <= i <= |api|
      invariant Catalogue(apps, order) == MergeAll(c, api[..i])
    {
      assert api[..i + 1][..i] == api[..i];
      var apiApp := api[i];
      if apiApp.name in apps {
        var existing := apps[apiApp.name];
        var tasks := existing.tasks;
        var j := 0;
        while j < |apiApp.tasks|
          invariant 0 <= j <= |apiApp.tasks|
          invariant tasks == AddApiTasks(existing.tasks, apiApp.tasks[..j])
        {
          assert apiApp.tasks[..j + 1][..j] == apiApp.tasks[..j];
          var apiTask := apiApp.tasks[j];
          if !HasPrompt(tasks, apiTask.prompt) {
            tasks := tasks + [apiTask.(completed := Some(false))];
          }
          j := j + 1;
        }
        assert apiApp.tasks[..j] == apiApp.tasks;
        apps := apps[apiApp.name := existing.(domain := apiApp.domain, description := apiApp.description,
                                              categories := apiApp.categories, tasks := tasks)];
      } else {
        var fresh_ := apiApp.(seen := Some(false),
                              tasks := seq(|apiApp.tasks|, k requires 0 <= k < |apiApp.tasks| => OpenTask(apiApp.tasks[k])));
        apps := apps[apiApp.name := fresh_];
        order := order + [apiApp.name];
      }
      i := i + 1;
    }
    assert api[..i] == api;
    r := Catalogue(apps, order);
  }

  // ---------------------------------------------------------------------
  // Selection: every seen app and a few unseen ones.

  predicate IsSeen(a: ForgeApp) {
    a.seen == Some(true)
  }

  function SeenApps(s: seq<ForgeApp>): (r: seq<ForgeApp>)
    ensures forall a :: a in r <==> a in s && IsSeen(a)
    ensures |r| <= |s|
  {
    if s == [] then [] else (if IsSeen(s[0]) then [s[0]] else []) + SeenApps(s[1..])
  }

  function UnseenApps(s: seq<ForgeApp>): (r: seq<ForgeApp>)
    ensures forall a :: a in r <==> a in s && !IsSeen(a)
    ensures |r| <= |s|
  {
    if s == [] then [] else (if IsSeen(s[0]) then [] else [s[0]]) + UnseenApps(s[1..])
  }

  /** Both filters keep the list's order: filtering a concatenation
      concatenates the filtered parts, and one app is kept by exactly one of
      the two filters. */
  lemma {:induction false} FiltersKeepOrder(s: seq<ForgeApp>, t: seq<ForgeApp>)
    ensures SeenApps(s + t) == SeenApps(s) + SeenApps(t)
    ensures UnseenApps(s + t) == UnseenApps(s) + UnseenApps(t)
    decreases |s|
  {
    if s != [] {
      assert (s + t)[1..] == s[1..] + t;
      FiltersKeepOrder(s[1..], t);
    } else {
      assert s + t == t;
    }
  }

  lemma FilterSingle(a: ForgeApp)
    ensures SeenApps([a]) == if IsSeen(a) then [a] else []
    ensures UnseenApps([a]) == if IsSeen(a) then [] else [a]
  {
    assert [a][1..] == [];
  }

  /** Seen and unseen apps split the list. */
  lemma {:induction false} SeenUnseenSplit(s: seq<ForgeApp>)
    ensures multiset(SeenApps(s)) + multiset(UnseenApps(s)) == multiset(s)
    ensures |SeenApps(s)| + |UnseenApps(s)| == |s|
  {
    if s != [] {
      SeenUnseenSplit(s[1..]);
      assert s == [s[0]] + s[1..];
    }
  }

  function Min(a: int, b: int): int {
    if a <= b then a else b
  }

  function Max(a: int, b: int): int {
    if a >= b then a else b
  }

  /** How many unseen apps may join the seen ones: up to two, and none that
      would take the list past three apps. */
  function UnseenQuota(seenCount: nat): (q: nat)
    ensures q <= 2 && (seenCount >= 3 ==> q == 0) && (q == 0 || seenCount + q <= 3)
    ensures seenCount <= 1 ==> q == 2
  {
    Min(2, Max(0, 3 - seenCount))
  }

  /** `s.sort(() => Math.random() - 0.5).slice(0, n)`: the first `n` items of
      some permutation of `s`. */
  method TakeShuffled<T(==)>(s: seq<T>, n: nat) returns (r: seq<T>)
    ensures |r| == Min(n, |s|)
    ensures multiset(r) <= multiset(s)
  {
    var shuffled :| multiset(shuffled) == multiset(s);
    assert |shuffled| == |s| by {
      assert |multiset(shuffled)| == |multiset(s)|;
    }
    r := shuffled[..Min(n, |shuffled|)];
    assert shuffled == r + shuffled[|r|..];
    assert multiset(shuffled) == multiset(r) + multiset(shuffled[|r|..]);
  }

  /** All seen apps, in order, then a random choice of unseen ones; nothing
      when there are no apps at all. */
  method SelectApps(all: seq<ForgeApp>) returns (r: seq<ForgeApp>)
    ensures all == [] ==> r == []
    ensures all != [] ==>
      && SeenApps(all) <= r
      && |r| == |SeenApps(all)| + Min(UnseenQuota(|SeenApps(all)|), |UnseenApps(all)|)
      && multiset(r[|SeenApps(all)|..]) <= multiset(UnseenApps(all))
  {
    if |all| == 0 {
      return [];
    }
    var seen := SeenApps(all);
    var unseen := UnseenApps(all);
    r := seen;
    if |unseen| > 0 {
      var added := TakeShuffled(unseen, Min(2, Max(0, 3 - |seen|)));
      r := r + added;
      assert r[|seen|..] == added;
    } else {
      assert r[|seen|..] == [];
    }
  }

  /** A selection keeps every seen app. */
  lemma SeenSelected(all: seq<ForgeApp>, chosen: seq<ForgeApp>)
    requires SeenApps(all) <= chosen
    ensures forall x :: x in all && IsSeen(x) ==> x in chosen
  {
    forall x | x in all && IsSeen(x) ensures x in chosen {
      var q :| 0 <= q < |SeenApps(all)| && SeenApps(all)[q] == x;
      assert chosen[q] == x;
    }
  }

  /** A selection lists only apps it was given. */
  lemma SelectedListed(all: seq<ForgeApp>, chosen: seq<ForgeApp>)
    requires all != []
    requires SeenApps(all) <= chosen && multiset(chosen[|SeenApps(all)|..]) <= multiset(UnseenApps(all))
    ensures forall x :: x in chosen ==> x in all
  {
    var n := |SeenApps(all)|;
    forall i | 0 <= i < |chosen| ensures chosen[i] in all {
      if i < n {
        SeenMember(all, chosen, i);
      } else {
        assert chosen[i] == chosen[n..][i - n];
        UnseenMember(all, chosen[n..], i - n);
      }
    }
  }

  lemma SeenMember(all: seq<ForgeApp>, chosen: seq<ForgeApp>, i: nat)
    requires SeenApps(all) <= chosen && i < |SeenApps(all)|
    ensures chosen[i] in all
  {
    assert chosen[i] == SeenApps(all)[i];
  }

  lemma UnseenMember(all: seq<ForgeApp>, rest: seq<ForgeApp>, j: nat)
    requires multiset(rest) <= multiset(UnseenApps(all)) && j < |rest|
    ensures rest[j] in all
  {
    assert rest[j] in multiset(rest);
    assert rest[j] in UnseenApps(all);
  }

  /** The values of an ordered map are exactly its entries. */
  lemma ValuesAreEntries(m: Catalogue)
    requires Ordered(m)
    ensures forall k :: k in m.apps ==> m.apps[k] in Values(m)
    ensures forall x :: x in Values(m) ==> x.name in m.apps && m.apps[x.name] == x
  {
    forall k | k in m.apps ensures m.apps[k] in Values(m) {
      var p :| 0 <= p < |m.order| && m.order[p] == k;
      assert Values(m)[p] == m.apps[k];
    }
  }

  // ---------------------------------------------------------------------
  // The skills list.

  /** The apps of the history list are all seen. */
  lemma HistoryListSeen(recs: seq<RecordingInfo>)
    requires History(recs).Ok?
    ensures HistoryShaped(History(recs).value)
    ensures forall a :: a in SortByName(Values(History(recs).value)) ==> IsSeen(a)
  {
    HistoryIsShaped(recs);
    var c := History(recs).value;
    forall a | a in SortByName(Values(c)) ensures IsSeen(a) {
      assert a in multiset(SortByName(Values(c)));
      var p :| 0 <= p < |Values(c)| && Values(c)[p] == a;
    }
  }

  /** The map the history apps fill, in order, each with its scores attached. */
  function ScoredCatalogue(hist: seq<ForgeApp>, subs: seq<Submission>): (c: Catalogue)
    ensures Ordered(c)
    decreases |hist|
  {
    if hist == [] then EmptyCatalogue
    else SetApp(ScoredCatalogue(hist[..|hist| - 1], subs), ScoredApp(hist[|hist| - 1], subs))
  }

  /** Some app of `hist` is named `k`. */
  predicate NamedIn(hist: seq<ForgeApp>, k: string) {
    exists j :: 0 <= j < |hist| && hist[j].name == k
  }

  lemma NamedInSnoc(hist: seq<ForgeApp>, k: string)
    requires hist != []
    ensures NamedIn(hist, k) <==> NamedIn(hist[..|hist| - 1], k) || hist[|hist| - 1].name == k
  {
    var init := hist[..|hist| - 1];
    if NamedIn(hist, k) && hist[|hist| - 1].name != k {
      var j :| 0 <= j < |hist| && hist[j].name == k;
      assert init[j].name == k;
    }
    if NamedIn(init, k) {
      var j :| 0 <= j < |init| && init[j].name == k;
      assert hist[j].name == k;
    }
  }

  /** The scored map has one entry per history name. */
  lemma {:induction false} ScoredKeys(hist: seq<ForgeApp>, subs: seq<Submission>)
    ensures forall k :: k in ScoredCatalogue(hist, subs).apps <==> NamedIn(hist, k)
    decreases |hist|
  {
    if hist != [] {
      ScoredKeys(hist[..|hist| - 1], subs);
      forall k ensures k in ScoredCatalogue(hist, subs).apps <==> NamedIn(hist, k) {
        NamedInSnoc(hist, k);
      }
    }
  }

  /** Each entry of the scored map is the scored copy of the last history
      app of its name. */
  predicate LastScored(hist: seq<ForgeApp>, subs: seq<Submission>, k: string, e: ForgeApp) {
    exists j :: 0 <= j < |hist| && hist[j].name == k && e == ScoredApp(hist[j], subs)
      && forall l :: j < l < |hist| ==> hist[l].name != k
  }

  lemma {:induction false} ScoredEntries(hist: seq<ForgeApp>, subs: seq<Submission>)
    ensures forall k :: k in ScoredCatalogue(hist, subs).apps ==>
      LastScored(hist, subs, k, ScoredCatalogue(hist, subs).apps[k])
    decreases |hist|
  {
    if hist != [] {
      var n := |hist| - 1;
      var init := hist[..n];
      ScoredEntries(init, subs);
      var c := ScoredCatalogue(hist, subs);
      forall k | k in c.apps ensures LastScored(hist, subs, k, c.apps[k]) {
        if hist[n].name != k {
          assert k in ScoredCatalogue(init, subs).apps && c.apps[k] == ScoredCatalogue(init, subs).apps[k];
          LastScoredExtends(init, hist, subs, k, c.apps[k]);
        } else {
          assert c.apps[k] == ScoredApp(hist[n], subs);
        }
      }
    }
  }

  /** An app of another name appended to the history keeps an entry's witness. */
  lemma LastScoredExtends(init: seq<ForgeApp>, hist: seq<ForgeApp>, subs: seq<Submission>, k: string, e: ForgeApp)
    requires hist != [] && init == hist[..|hist| - 1] && hist[|hist| - 1].name != k
    requires LastScored(init, subs, k, e)
    ensures LastScored(hist, subs, k, e)
  {
    var j :| 0 <= j < |init| && init[j].name == k && e == ScoredApp(init[j], subs)
      && forall l :: j < l < |init| ==> init[l].name != k;
    assert hist[j] == init[j];
    forall l | j < l < |hist| ensures hist[l].name != k {
      if l < |init| {
        assert hist[l] == init[l];
      }
    }
  }

  /** `historyApps.forEach(app => { app.tasks = ...; appMap.set(app.name, app) })`. */
  method HistoryCatalogue(hist: seq<ForgeApp>, subs: seq<Submission>) returns (c: Catalogue)
    requires forall a :: a in hist ==> IsSeen(a)
    ensures c == ScoredCatalogue(hist, subs)
    ensures Ordered(c)
    ensures forall k :: k in c.apps <==> exists j :: 0 <= j < |hist| && hist[j].name == k
    ensures forall k :: k in c.apps ==> IsSeen(c.apps[k])
  {
    c := EmptyCatalogue;
    var i := 0;
    while i < |hist|
      invariant 0 <= i <= |hist|
      invariant c == ScoredCatalogue(hist[..i], subs)
    {
      assert hist[..i + 1][..i] == hist[..i];
      c := SetApp(c, ScoredApp(hist[i], subs));
      i := i + 1;
    }
    assert hist[..i] == hist;
    ScoredKeys(hist, subs);
    ScoredEntries(hist, subs);
    forall k | k in c.apps ensures IsSeen(c.apps[k]) {
      assert LastScored(hist, subs, k, c.apps[k]);
      var j :| 0 <= j < |hist| && hist[j].name == k && c.apps[k] == ScoredApp(hist[j], subs);
      assert hist[j] in hist;
    }
  }

  /** The submissions whose scores the skills list uses: none without a wallet. */
  function SubmissionsUsed(walletAddress: string, submissions: Result<seq<Submission>>): seq<Submission> {
    if walletAddress != "" && submissions.Ok? then submissions.value else []
  }

  /** The map the skills list selects from: the scored history, merged with
      the API's apps when that fetch succeeded. */
  ghost function SkillsMap(recs: seq<RecordingInfo>, subs: seq<Submission>, apiApps: Option<seq<ForgeApp>>): (m: Catalogue)
    requires History(recs).Ok?
    ensures Ordered(m)
  {
    HistoryIsShaped(recs);
    var c := ScoredCatalogue(SortByName(Values(History(recs).value)), subs);
    if apiApps.Some? then
      MergeOrdered(c, apiApps.value);
      MergeAll(c, apiApps.value)
    else c
  }

  /** The skills list: the history (with scores from the wallet's
      submissions) merged with the API's apps when that fetch succeeds, then
      every seen app and a few unseen ones.  A failing history or a failing
      submission query fails the whole call; a failing API fetch is ignored.
      Every listed app is the map's entry of its name, and the apps after
      the seen ones are drawn from the unseen ones; every recorded app is
      listed, and every listed app is a recorded one or an unseen app of the
      API. */
  method AppsForSkills(recs: seq<RecordingInfo>, walletAddress: string, submissions: Result<seq<Submission>>,
                       apiApps: Option<seq<ForgeApp>>)
    returns (r: Result<seq<ForgeApp>>)
    ensures r.Err? <==> History(recs).Err? || (walletAddress != "" && submissions.Err?)
    ensures r.Ok? ==>
      && History(recs).Ok?
      && var m := SkillsMap(recs, SubmissionsUsed(walletAddress, submissions), apiApps);
         && (forall a :: a in r.value ==> a.name in m.apps && m.apps[a.name] == a)
         && (Values(m) == [] ==> r.value == [])
         && (Values(m) != [] ==>
               && SeenApps(Values(m)) <= r.value
               && |r.value| == |SeenApps(Values(m))| + Min(UnseenQuota(|SeenApps(Values(m))|), |UnseenApps(Values(m))|)
               && multiset(r.value[|SeenApps(Values(m))|..]) <= multiset(UnseenApps(Values(m))))
    ensures r.Ok? ==> forall k :: FirstQuest(recs, k).Some? ==> exists i :: 0 <= i < |r.value| && r.value[i].name == k
    ensures r.Ok? ==> forall a :: a in r.value ==>
      FirstQuest(recs, a.name).Some? ||
      (apiApps.Some? && LastNamed(apiApps.value, a.name).Some? && a.seen == Some(false))
  {
    var history := AppsForHistory(recs);
    if history.Err? {
      return Err(history.error);
    }
    var subs: seq<Submission> := [];
    if walletAddress != "" {
      if submissions.Err? {
        return Err(submissions.error);
      }
      subs := submissions.value;
    }
    HistoryListSeen(recs);
    var c := HistoryCatalogue(history.value, subs);

    var merged := c;
    if apiApps.Some? {
      merged := MergeApiApps(c, apiApps.value);
      MergeOrdered(c, apiApps.value);
    }
    assert merged == SkillsMap(recs, SubmissionsUsed(walletAddress, submissions), apiApps);
    var all := Values(merged);
    var chosen := SelectApps(all);
    SkillsListing(recs, c, apiApps, merged, chosen);
    ChosenEntries(merged, chosen);
    r := Ok(chosen);
  }

  /** A selection from a map lists the map's own entries. */
  lemma ChosenEntries(m: Catalogue, chosen: seq<ForgeApp>)
    requires Ordered(m)
    requires Values(m) == [] ==> chosen == []
    requires Values(m) != [] ==>
      SeenApps(Values(m)) <= chosen && multiset(chosen[|SeenApps(Values(m))|..]) <= multiset(UnseenApps(Values(m)))
    ensures forall a :: a in chosen ==> a.name in m.apps && m.apps[a.name] == a
  {
    ValuesAreEntries(m);
    if Values(m) != [] {
      SelectedListed(Values(m), chosen);
    }
  }

  /** The facts behind the skills list: the history map holds exactly the
      recorded apps, all seen; merging keeps them seen and adds only unseen
      API apps; the selection keeps every seen app and lists only apps of
      the merged map. */
  lemma SkillsListing(recs: seq<RecordingInfo>, c: Catalogue, apiApps: Option<seq<ForgeApp>>,
                      merged: Catalogue, chosen: seq<ForgeApp>)
    requires Ordered(c)
    requires forall k :: k in c.apps <==> FirstQuest(recs, k).Some?
    requires forall k :: k in c.apps ==> IsSeen(c.apps[k])
    requires merged == if apiApps.Some? then MergeAll(c, apiApps.value) else c
    requires Ordered(merged)
    requires Values(merged) == [] ==> chosen == []
    requires Values(merged) != [] ==>
      SeenApps(Values(merged)) <= chosen
      && multiset(chosen[|SeenApps(Values(merged))|..]) <= multiset(UnseenApps(Values(merged)))
    ensures forall k :: FirstQuest(recs, k).Some? ==> exists i :: 0 <= i < |chosen| && chosen[i].name == k
    ensures forall a :: a in chosen ==>
      FirstQuest(recs, a.name).Some? ||
      (apiApps.Some? && LastNamed(apiApps.value, a.name).Some? && a.seen == Some(false))
  {
    var all := Values(merged);
    ValuesAreEntries(merged);
    if apiApps.Some? {
      MergeOrdered(c, apiApps.value);
      MergeKept(c, apiApps.value);
      MergeAdded(c, apiApps.value);
    }
    forall k | FirstQuest(recs, k).Some? ensures exists i :: 0 <= i < |chosen| && chosen[i].name == k {
      var x := merged.apps[k];
      assert x in all && IsSeen(x);
      SeenSelected(all, chosen);
      var i :| 0 <= i < |chosen| && chosen[i] == x;
    }
    if all != [] {
      SelectedListed(all, chosen);
    }
  }

  // ---------------------------------------------------------------------
  // The gym list.

  const GymAppLimit: nat := 6
  const GymTaskLimit: nat := 3

  /** What the gym fetch yields: a rejected `fetch` or an unreadable body
      (each with its own error message), a response that is not ok, or the
      apps its body holds. */
  datatype GymFetch =
    | GymThrew(message: string)
    | GymNotOk
    | GymApps(apps: seq<ForgeApp>)

  /** The gym list.  A rejected fetch or an unreadable body passes on its
      own error, a response that is not ok raises "Failed to fetch apps"; with a
      pool id the API's apps come back as they are; otherwise a random
      choice of at most six apps, each with a random choice of at most three
      of its tasks.  `picked` is the apps chosen, before their tasks are cut. */
  method AppsForGym(poolId: Option<string>, response: GymFetch)
    returns (r: Result<seq<ForgeApp>>, ghost picked: seq<ForgeApp>)
    ensures r.Err? <==> !response.GymApps?
    ensures response.GymThrew? ==> r == Err(response.message)
    ensures response.GymNotOk? ==> r == Err("Failed to fetch apps")
    ensures response.GymApps? && poolId.Some? && poolId.value != "" ==> r == Ok(response.apps)
    ensures response.GymApps? && !(poolId.Some? && poolId.value != "") ==>
      && r.Ok?
      && |r.value| == Min(GymAppLimit, |response.apps|) == |picked|
      && multiset(picked) <= multiset(response.apps)
      && forall i :: 0 <= i < |picked| ==>
           && r.value[i] == picked[i].(tasks := r.value[i].tasks)
           && |r.value[i].tasks| == Min(GymTaskLimit, |picked[i].tasks|)
           && multiset(r.value[i].tasks) <= multiset(picked[i].tasks)
  {
    picked := [];
    match response {
      case GymThrew(message) =>
        return Err(message), picked;
      case GymNotOk =>
        return Err("Failed to fetch apps"), picked;
      case GymApps(_) =>
    }
    var apps := response.apps;
    if poolId.Some? && poolId.value != "" {
      return Ok(apps), picked;
    }
    var chosen := TakeShuffled(apps, GymAppLimit);
    picked := chosen;
    var out: seq<ForgeApp> := [];
    var i := 0;
    while i < |chosen|
      invariant 0 <= i <= |chosen| && |out| == i
      invariant forall j :: 0 <= j < i ==>
        && out[j] == chosen[j].(tasks := out[j].tasks)
        && |out[j].tasks| == Min(GymTaskLimit, |chosen[j].tasks|)
        && multiset(out[j].tasks) <= multiset(chosen[j].tasks)
    {
      var kept := TakeShuffled(chosen[i].tasks, GymTaskLimit);
      out := out + [chosen[i].(tasks := kept)];
      i := i + 1;
    }
    r := Ok(out);
  }
}
