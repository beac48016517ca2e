/** Saving, and a whole load-then-save session. `on_save_file` publishes
    GET_DATA; every setting page object ever built answers, in the order the
    objects were built, by publishing its data as RECIEVE_DATA, which the Home
    page stores under the sender's page name; then the Home page shows
    `new_data` and writes it to the chosen file. An exception raised while a
    page reads its data leaves `on_save_file` before anything is shown; a
    page object destroyed by a later load raises TclError as soon as it
    reads one of its entries. */
module Session {
  import opened Types
  import opened Dicts
  import opened Base
  import opened Setting
  import opened SettingProofs
  import opened Sample
  import opened SampleProofs
  import opened Home
  import opened Application
  import opened ApplicationProofs

  /** What each page object built from `src` sends to GET_DATA: its page
      name with its fields read back, or the exception reading them raises.
      A page whose construction raised part-way answers with the fields it
      got; the page objects numbered in `gone` read destroyed widgets. */
  function Answers(src: seq<(string, PageData)>, gone: set<nat>): (a: seq<(string, Result<PageData, Error>)>)
    ensures |a| == |src|
    ensures forall i | 0 <= i < |src| ::
              a[i] == (src[i].0, EncodeEntries(BuildFields(src[i].0, src[i].1).entries, i !in gone))
  {
    seq(|src|, i requires 0 <= i < |src| => (src[i].0, EncodeEntries(BuildFields(src[i].0, src[i].1).entries, i !in gone)))
  }

  /** The RECIEVE_DATA publications made for `answers`, in order, up to the
      first exception, and that exception. */
  function Replies(answers: seq<(string, Result<PageData, Error>)>): (seq<(string, PageData)>, Option<Error>)
  {
    if answers == [] then ([], None)
    else
      var (prior, err) := Replies(answers[..|answers| - 1]);
      var last := answers[|answers| - 1];
      if err.Some? then (prior, err)
      else match last.1
        case Failure(e) => (prior, Some(e))
        case Success(d) => (prior + [(last.0, d)], None)
  }

  /** GET_DATA reaching page object number `i`: its `on_get_data` reads its
      fields and, unless that raises, publishes RECIEVE_DATA, which the Home
      page stores under the page name. */
  method Dispatch(app: App, i: nat) returns (r: Result<PageData, Error>)
    requires app.Valid() && i < |app.instances|
    modifies app.home
    ensures r == Answers(app.sources, app.gone)[i].1
    ensures app.home.newData == if r.Success? then Put(old(app.home.newData), app.sources[i].0, r.value)
                                else old(app.home.newData)
    ensures app.home.loaded == old(app.home.loaded) && app.home.shown == old(app.home.shown)
    ensures app.home.written == old(app.home.written)
  {
    var page := app.instances[i];
    var a := page.OnGetData();
    if a.Failure? {
      return Failure(a.error);
    }
    var sent := app.bus.Emit(EventOf(a.value), a.value);
    assert Callees(sent) == [HomeRecieveData];
    app.home.OnRecieveData(a.value.fm, a.value.sent);
    r := Success(a.value.sent);
  }

  /** `on_save_file` with GET_DATA dispatched to every page object and each
      RECIEVE_DATA to the Home page. `fileChosen` is the answer of the save
      dialog. */
  method SaveFile(app: App, fileChosen: bool) returns (err: Option<Error>)
    requires app.Valid()
    modifies app.home
    ensures var (replies, e) := Replies(Answers(app.sources, app.gone));
      && err == e
      && app.home.newData == Collected(old(app.home.newData), replies)
      && app.home.loaded == old(app.home.loaded)
      && (e.Some? ==> app.home.shown == old(app.home.shown) && app.home.written == old(app.home.written))
      && (e.None? ==> app.home.shown == Some(app.home.newData)
                      && app.home.written == if fileChosen then Some(app.home.newData) else old(app.home.written))
  {
    var calls := app.bus.Emit(GET_DATA, GetData);
    ghost var answers := Answers(app.sources, app.gone);
    assert |calls| == |app.instances| == |answers|;
    var i := 0;
    while i < |calls|
      invariant 0 <= i <= |calls|
      invariant Replies(answers[..i]).1 == None
      invariant app.home.newData == Collected(old(app.home.newData), Replies(answers[..i]).0)
      invariant app.home.loaded == old(app.home.loaded) && app.home.shown == old(app.home.shown)
      invariant app.home.written == old(app.home.written)
    {
      assert calls[i].0 == SettingGetData(i);
      var r := Dispatch(app, i);
      RepliesNext(answers, i);
      if r.Failure? {
        RepliesStop(answers, i + 1);
        return Some(r.error);
      }
      CollectedNext(old(app.home.newData), Replies(answers[..i]).0, answers[i].0, r.value);
      i := i + 1;
    }
    assert answers[..i] == answers;
    app.home.WriteSave(fileChosen);
    err := None;
  }

  /** One more page object answers. */
  lemma RepliesNext(src: seq<(string, Result<PageData, Error>)>, i: nat)
    requires i < |src|
    ensures Replies(src[..i + 1]) == var (prior, err) := Replies(src[..i]);
      if err.Some? then (prior, err)
      else match src[i].1
        case Failure(e) => (prior, Some(e))
        case Success(d) => (prior + [(src[i].0, d)], None)
  {
    assert src[..i + 1][..i] == src[..i];
  }

  /** Once a page object has raised, the later ones are never asked. */
  lemma {:induction false} RepliesStop(src: seq<(string, Result<PageData, Error>)>, i: nat)
    requires i <= |src| && Replies(src[..i]).1.Some?
    ensures Replies(src) == Replies(src[..i])
    decreases |src| - i
  {
    if i < |src| {
      RepliesNext(src, i);
      RepliesStop(src, i + 1);
    } else {
      assert src[..i] == src;
    }
  }

  /** `new_data` after one more reply. */
  lemma CollectedNext(newData: Document, replies: seq<(string, PageData)>, fm: string, data: PageData)
    ensures Collected(newData, replies + [(fm, data)]) == Put(Collected(newData, replies), fm, data)
  {
    assert (replies + [(fm, data)])[..|replies|] == replies;
  }

  /** Page objects built from pages that keep their settings answer with
      exactly those pages, in order, and none raises, as long as every
      destroyed one among them has no entry widget. */
  lemma {:induction false} RepliesKeep(src: seq<(string, PageData)>, gone: set<nat>)
    requires forall i | 0 <= i < |src| :: PageKeeps(src[i].1) && (i in gone ==> !HasEntryWidget(src[i].1))
    ensures Replies(Answers(src, gone)) == (src, None)
  {
    if src != [] {
      var n := |src|;
      var init, last := src[..n - 1], src[n - 1];
      RepliesKeep(init, gone);
      ReadsBack(last.0, last.1, n - 1 !in gone);
      AnswersSnoc(src, gone);
      assert init + [last] == src;
    }
  }

  /** The answers of all but the last page object, then the last one's. */
  lemma AnswersSnoc(src: seq<(string, PageData)>, gone: set<nat>)
    requires src != []
    ensures var n := |src|;
      Answers(src, gone) == Answers(src[..n - 1], gone) +
        [(src[n - 1].0, EncodeEntries(BuildFields(src[n - 1].0, src[n - 1].1).entries, n - 1 !in gone))]
  {
  }

  /** A page that keeps its settings reads them back, destroyed or not, as
      long as a destroyed one has no entry widget. */
  lemma ReadsBack(name: string, values: PageData, live: bool)
    requires PageKeeps(values) && (!live ==> !HasEntryWidget(values))
    ensures EncodeEntries(BuildFields(name, values).entries, live) == Success(values)
  {
    PageRoundTrip(name, values);
    DestroyedPageRead(name, values);
  }

  /** When every answer is data or exception `e`, and one is an exception,
      the save stops with `e`. */
  lemma {:induction false} RepliesRaise(answers: seq<(string, Result<PageData, Error>)>, e: Error)
    requires forall i | 0 <= i < |answers| :: answers[i].1.Success? || answers[i].1 == Failure(e)
    requires exists i | 0 <= i < |answers| :: answers[i].1.Failure?
    ensures Replies(answers).1 == Some(e)
  {
    var n := |answers|;
    var init := answers[..n - 1];
    if answers[n - 1].1.Success? {
      var i :| 0 <= i < n && answers[i].1.Failure?;
      assert init[i] == answers[i];
      RepliesRaise(init, e);
    } else if exists i | 0 <= i < n - 1 :: init[i].1.Failure? {
      RepliesRaise(init, e);
    } else {
      RepliesClean(init);
    }
  }

  /** Answers that are all data raise nothing. */
  lemma {:induction false} RepliesClean(answers: seq<(string, Result<PageData, Error>)>)
    requires forall i | 0 <= i < |answers| :: answers[i].1.Success?
    ensures Replies(answers).1 == None
  {
    if answers != [] {
      RepliesClean(answers[..|answers| - 1]);
    }
  }

  /** A page object left over from an earlier load stays subscribed to
      GET_DATA; once its page is destroyed, reading its first entry raises
      TclError, so the save stops before anything is shown or written. */
  lemma StaleSenderRaises(src: seq<(string, PageData)>, gone: set<nat>, i: nat)
    requires forall j | 0 <= j < |src| :: PageKeeps(src[j].1)
    requires i < |src| && i in gone && HasEntryWidget(src[i].1)
    ensures Replies(Answers(src, gone)).1 == Some(TclError)
  {
    var answers := Answers(src, gone);
    forall j | 0 <= j < |src| ensures answers[j].1.Success? || answers[j].1 == Failure(TclError) {
      PageRoundTrip(src[j].0, src[j].1);
      DestroyedPageRead(src[j].0, src[j].1);
    }
    DestroyedPageRead(src[i].0, src[i].1);
    RepliesRaise(answers, TclError);
  }

  /** `load_file`: BUILD_PAGE reaches `on_build_page`, which destroys the
      page objects of the pages it deletes and builds one page object per
      page of a document whose pages all build, each stored as a setting
      page. */
  method Load(app: App, doc: Document) returns (err: Option<Error>)
    requires app.Valid() && BuildsFrom(doc, 0, app.system)
    modifies app, app.bus, app.sidebar, app.sample, app.home, app.instances
    ensures err == None && app.Valid()
    ensures app.sources == old(app.sources) + doc && app.gone == old(app.gone) + SettingInstances(old(app.pages))
    ensures app.home.loaded == Some(doc) && app.home.newData == old(app.home.newData)
    ensures app.home.shown == old(app.home.shown) && app.home.written == old(app.home.written)
    ensures app.pages.Keys == {FIRST_PAGE_NAME} + KeysFrom(doc, 0)
    ensures forall k | k in KeysFrom(doc, 0) :: app.pages[k].SettingRef?
    ensures FIRST_PAGE_NAME in old(app.sidebar.Snapshot().items) ==>
              app.sidebar.Snapshot().items.Keys == {FIRST_PAGE_NAME} + KeysFrom(doc, 0)
  {
    var p := app.home.LoadFile(doc);
    var calls := app.bus.Emit(EventOf(p), p);
    assert Callees(calls) == [AppBuildPage];
    RebuildSucceeds(app.pages, app.sidebar.Snapshot(), app.sample.Snapshot(), p.data, |app.instances|, app.system);
    err := app.OnBuildPage(p.data);
    assert doc[..|doc|] == doc;
  }

  /** The page objects in a pages table whose setting pages are all
      numbered below `n` are numbered below `n`. */
  lemma SettingInstancesBelow(pages: map<string, PageRef>, n: nat)
    requires forall k | k in pages && pages[k].SettingRef? :: pages[k].instance < n
    ensures forall x | x in SettingInstances(pages) :: x < n
  {
  }

  /** With no page object built yet, none has been built from anything,
      destroyed, or stored in the pages table. */
  lemma NothingBuiltYet(app: App)
    requires app.Valid() && app.instances == []
    ensures app.sources == [] && app.gone == {} && SettingInstances(app.pages) == {}
  {
    assert forall g :: g !in app.gone;
    SettingInstancesBelow(app.pages, 0);
    assert forall g :: g !in SettingInstances(app.pages);
  }

  /** A fresh application loads a document whose pages all build and keep
      their settings, with distinct page names, and saves: the shown and
      written document is the loaded one, page by page, in the same order;
      the pages table and the sidebar hold Home and the document's pages. */
  method LoadThenSave(app: App, doc: Document, fileChosen: bool) returns (err: Option<Error>)
    requires app.Valid() && app.instances == [] && app.home.newData == []
    requires FIRST_PAGE_NAME in app.sidebar.Snapshot().items
    requires Distinct(Keys(doc)) && BuildsFrom(doc, 0, app.system)
    modifies app, app.bus, app.sidebar, app.sample, app.home, app.instances
    ensures err == None
    ensures app.home.loaded == Some(doc) && app.home.shown == Some(doc)
    ensures app.home.written == if fileChosen then Some(doc) else old(app.home.written)
    ensures app.pages.Keys == {FIRST_PAGE_NAME} + KeysFrom(doc, 0)
    ensures app.sidebar.Snapshot().items.Keys == {FIRST_PAGE_NAME} + KeysFrom(doc, 0)
  {
    NothingBuiltYet(app);
    err := Load(app, doc);
    SaveLoaded(app, doc, fileChosen);
  }

  /** The save ending `LoadThenSave`: the page objects, none destroyed, answer
      with exactly the loaded document, so it is shown and, when a file was
      chosen, written. */
  method SaveLoaded(app: App, doc: Document, fileChosen: bool)
    requires app.Valid() && app.home.newData == [] && app.sources == doc && app.gone == {}
    requires Distinct(Keys(doc)) && BuildsFrom(doc, 0, app.system)
    modifies app.home
    ensures app.home.loaded == old(app.home.loaded) && app.home.shown == Some(doc)
    ensures app.home.written == if fileChosen then Some(doc) else old(app.home.written)
  {
    RepliesKeep(doc, {});
    CollectedFresh(doc);
    var err := SaveFile(app, fileChosen);
  }

  /** Whatever the application holds, when a page other than Home's is a
      setting page with an entry widget, loading another document and then
      saving raises TclError: the load destroys that page's object, which
      stays subscribed to GET_DATA. Nothing is shown or written. */
  method ReloadThenSave(app: App, key: string, doc: Document, fileChosen: bool) returns (err: Option<Error>)
    requires app.Valid() && BuildsFrom(doc, 0, app.system)
    requires forall i | 0 <= i < |app.sources| :: PageKeeps(app.sources[i].1)
    requires key in app.pages && key != FIRST_PAGE_NAME && app.pages[key].SettingRef?
    requires HasEntryWidget(app.sources[app.pages[key].instance].1)
    modifies app, app.bus, app.sidebar, app.sample, app.home, app.instances
    ensures err == Some(TclError)
    ensures app.home.loaded == Some(doc)
    ensures app.home.shown == old(app.home.shown) && app.home.written == old(app.home.written)
  {
    var j := app.pages[key].instance;
    assert j in SettingInstances(app.pages);
    ghost var before := app.sources;
    err := Load(app, doc);
    StaleSources(before, doc, j, app.system);
    err := SaveStale(app, j, fileChosen);
  }

  /** The pages loaded before and after all keep their settings, and page
      object `j` still has its entry widget. */
  lemma StaleSources(before: seq<(string, PageData)>, doc: Document, j: nat, system: string)
    requires forall i | 0 <= i < |before| :: PageKeeps(before[i].1)
    requires BuildsFrom(doc, 0, system) && j < |before| && HasEntryWidget(before[j].1)
    ensures forall i | 0 <= i < |before + doc| :: PageKeeps((before + doc)[i].1)
    ensures HasEntryWidget((before + doc)[j].1)
  {
  }

  /** A save while page object number `j`, which has an entry widget, is
      destroyed: TclError, and nothing is shown or written. */
  method SaveStale(app: App, j: nat, fileChosen: bool) returns (err: Option<Error>)
    requires app.Valid() && j < |app.sources| && j in app.gone && HasEntryWidget(app.sources[j].1)
    requires forall i | 0 <= i < |app.sources| :: PageKeeps(app.sources[i].1)
    modifies app.home
    ensures err == Some(TclError)
    ensures app.home.loaded == old(app.home.loaded)
    ensures app.home.shown == old(app.home.shown) && app.home.written == old(app.home.written)
  {
    StaleSenderRaises(app.sources, app.gone, j);
    err := SaveFile(app, fileChosen);
  }
}
