/** The application window: it creates the bus and the components, wires the
    start-up events, shows one page at a time and rebuilds the setting pages
    from a loaded theme document. Pages are referred to by the number of the
    setting page object (its position in `instances`) or as the Home page. */
module Application {
  import opened Types
  import opened Dicts
  import opened Base
  import opened Setting
  import opened Sample
  import opened Sidebar
  import opened Home
  import SidebarProofs

  datatype PageRef = HomeRef | SettingRef(instance: nat)

  /** Every event but GET_DATA has the listeners `App.__init__` leaves it
      with; GET_DATA gains one listener per setting page ever built. */
  predicate Wired(table: map<string, seq<Callback>>)
  {
    && Listeners(table, DEL_ALL_BUTTON) == [SideBarDelAllButton]
    && Listeners(table, ADD_BUTTON) == [SideBarAddButton]
    && Listeners(table, SHOW_PAGE) == [SideBarSelectButton, AppShowPage]
    && Listeners(table, CHANGE_CONF) == [SampleChangeConf]
    && Listeners(table, RECIEVE_DATA) == [HomeRecieveData]
    && Listeners(table, BUILD_PAGE) == [AppBuildPage]
  }

  /** The GET_DATA callbacks of the first `n` page objects, in order. */
  function GetDataCallbacks(n: nat): (cs: seq<Callback>)
    ensures |cs| == n
    ensures forall i | 0 <= i < n :: cs[i] == SettingGetData(i)
  {
    seq(n, i requires 0 <= i < n => SettingGetData(i))
  }

  /** The pages table after the delete loop of `on_build_page`. */
  function KeptPages(pages: map<string, PageRef>): map<string, PageRef>
  {
    map k | k in pages && k == FIRST_PAGE_NAME :: pages[k]
  }

  /** The data a page publishes as CHANGE_CONF at the end of its
      construction, or the exception its construction raises first. */
  function PageValues(name: string, values: PageData): Result<PageData, Error>
  {
    var b := BuildFields(name, values);
    if b.error.Some? then Failure(b.error.value) else EncodeEntries(b.entries, true)
  }

  /** Page object number `i` of `objs` is numbered `i`, holds the page
      name and the fields it was built with from `src[i]`, and has been
      destroyed exactly when `i` is in `gone`. */
  ghost predicate BuiltFrom(objs: seq<SettingPage>, src: seq<(string, PageData)>, gone: set<nat>)
    reads objs
  {
    && |objs| == |src|
    && (forall g | g in gone :: g < |objs|)
    && forall i | 0 <= i < |objs| ::
         && objs[i].instance == i
         && objs[i].pageName == src[i].0
         && objs[i].entryItems == BuildFields(src[i].0, src[i].1).entries
         && objs[i].destroyed == (i in gone)
  }

  /** The page objects the delete loop of `on_build_page` destroys: those
      stored under a name other than Home's. */
  function SettingInstances(pages: map<string, PageRef>): set<nat>
  {
    set k | k in pages && k != FIRST_PAGE_NAME && pages[k].SettingRef? :: pages[k].instance
  }

  /** The progress of `on_build_page`: the pages table, the sidebar and the
      sample page, how many page objects were constructed, and the exception
      that stopped the loop, if any. */
  datatype Stage = Stage(pages: map<string, PageRef>, sidebar: SidebarState, sample: SampleState, built: nat,
                         error: Option<Error>)

  /** One iteration for (key, values): ADD_BUTTON reaches the sidebar, page
      object number `instance` is constructed, its CHANGE_CONF reaches the
      sample page, and only then is the page stored under `key`. */
  function BuildStep(st: Stage, instance: nat, key: string, values: PageData, system: string): (r: Stage)
    ensures r.built == st.built + 1
  {
    var sidebar := match AddOutcome(st.sidebar, MAIN, key) case Success(s) => s case Failure(_) => st.sidebar;
    PageStep(st.(sidebar := sidebar), instance, key, values, system)
  }

  /** The rest of the iteration once the button is added: page object
      number `instance` is constructed, its CHANGE_CONF reaches the sample
      page, and only then is the page stored under `key`. */
  function PageStep(st: Stage, instance: nat, key: string, values: PageData, system: string): (r: Stage)
    ensures r.built == st.built + 1
  {
    var built := st.built + 1;
    match PageValues(key, values)
    case Failure(e) => st.(built := built, error := Some(e))
    case Success(d) =>
      match ChangeConfOutcome(st.sample, key, d, FontOsKey(system))
      case Failure(e) => st.(built := built, error := Some(e))
      case Success(sample) => Stage(st.pages[key := SettingRef(instance)], st.sidebar, sample, built, None)
  }

  /** The loop of `on_build_page` over the keys of `data` from the `i`-th on,
      starting at stage `st`, numbering page objects from `next` and
      stopping at the first exception. */
  function RunFrom(data: Document, i: nat, st: Stage, next: nat, system: string): (r: Stage)
    requires i <= |data| && st.error.None?
    ensures st.built <= r.built <= st.built + |data| - i
    ensures r.error.None? ==> r.built == st.built + |data| - i
    decreases |data| - i, 2
  {
    if i == |data| then st else RunStep(data, i, st, next, system)
  }

  /** The iteration for the `i`-th key of `data`, then the rest of the loop. */
  function RunStep(data: Document, i: nat, st: Stage, next: nat, system: string): (r: Stage)
    requires i < |data| && st.error.None?
    ensures st.built < r.built <= st.built + |data| - i
    ensures r.error.None? ==> r.built == st.built + |data| - i
    decreases |data| - i, 1
  {
    RunBody(data, i, st, next, system)
  }

  function RunBody(data: Document, i: nat, st: Stage, next: nat, system: string): (r: Stage)
    requires i < |data| && st.error.None?
    ensures st.built < r.built <= st.built + |data| - i
    ensures r.error.None? ==> r.built == st.built + |data| - i
    decreases |data| - i, 0
  {
    var after := BuildStep(st, next, data[i].0, data[i].1, system);
    if after.error.Some? then after else RunFrom(data, i + 1, after, next + 1, system)
  }

  /** The state `on_show_page` works on. */
  datatype View = View(pages: map<string, PageRef>, current: Option<PageRef>, shown: bool, span: nat)

  /** The entries of `pages` whose names are not in `keys`. */
  function Removed(pages: map<string, PageRef>, keys: set<string>): map<string, PageRef>
  {
    map k | k in pages && k !in keys :: pages[k]
  }

  /** The entries of `pages` under Home's name or a name in `keys`. */
  function Remaining(pages: map<string, PageRef>, keys: set<string>): map<string, PageRef>
  {
    map k | k in pages && (k == FIRST_PAGE_NAME || k in keys) :: pages[k]
  }

  /** Taking `k` out of `keys` removes it from the pages left, unless it is
      Home, and adds the page object stored under `k`, if any, to those the
      delete loop has destroyed. */
  lemma RemovedStep(pages: map<string, PageRef>, keys: set<string>, k: string)
    requires k in keys
    ensures Remaining(pages, keys - {k}) == if k != FIRST_PAGE_NAME then Remaining(pages, keys) - {k} else Remaining(pages, keys)
    ensures SettingInstances(Removed(pages, keys - {k})) ==
            SettingInstances(Removed(pages, keys)) +
            if k in pages && k != FIRST_PAGE_NAME && pages[k].SettingRef? then {pages[k].instance} else {}
  {
    var before, after := Removed(pages, keys), Removed(pages, keys - {k});
    if k in pages {
      assert after == before[k := pages[k]];
      var extra := if k != FIRST_PAGE_NAME && pages[k].SettingRef? then {pages[k].instance} else {};
      forall n | n in SettingInstances(after) ensures n in SettingInstances(before) + extra {
        var k' :| k' in after && k' != FIRST_PAGE_NAME && after[k'].SettingRef? && after[k'].instance == n;
        if k' != k {
          assert k' in before;
        }
      }
      forall n | n in SettingInstances(before) + extra ensures n in SettingInstances(after) {
        if n in SettingInstances(before) {
          var k' :| k' in before && k' != FIRST_PAGE_NAME && before[k'].SettingRef? && before[k'].instance == n;
          assert k' in after;
        } else {
          assert k in after;
        }
      }
    } else {
      assert after == before;
    }
  }

  /** The current page is a page object that has been destroyed. */
  predicate CurrentGone(v: View, gone: set<nat>)
  {
    v.current.Some? && v.current.value.SettingRef? && v.current.value.instance in gone
  }

  /** The outcome of `on_show_page(name)`: the current page is taken off the
      grid first, which raises TclError when that page object is in `gone`;
      then the page of `name` becomes current and is shown across two
      columns for Home and one otherwise, or KeyError. */
  function ShowOutcome(v: View, name: string, gone: set<nat>): (View, Option<Error>)
  {
    if CurrentGone(v, gone) then (v, Some(TclError))
    else if name !in v.pages then (v.(shown := v.shown && v.current.None?), Some(KeyError))
    else (v.(current := Some(v.pages[name]), shown := true, span := if name != FIRST_PAGE_NAME then 1 else 2), None)
  }

  /** `set_params`: the file parameters override the command-line ones when
      the parameter path is set and names an existing file. */
  function SetParams<V>(cli: map<string, V>, fileFound: bool, fileParams: map<string, V>): (r: map<string, V>)
    ensures r.Keys == if fileFound then cli.Keys + fileParams.Keys else cli.Keys
    ensures forall k | k in r :: r[k] == if fileFound && k in fileParams then fileParams[k] else cli[k]
  {
    if fileFound then cli + fileParams else cli
  }

  /** The listeners the components register when `App.__init__` creates them:
      the sidebar's three, then the sample page's, then the Home page's. */
  function ComponentTable(): map<string, seq<Callback>>
  {
    Subscribed(Subscribed(SidebarTable(), CHANGE_CONF, SampleChangeConf), RECIEVE_DATA, HomeRecieveData)
  }

  /** The sidebar's three registrations on an empty bus. */
  function SidebarTable(): map<string, seq<Callback>>
  {
    Subscribed(Subscribed(Subscribed(map[], DEL_ALL_BUTTON, SideBarDelAllButton),
                          ADD_BUTTON, SideBarAddButton), SHOW_PAGE, SideBarSelectButton)
  }

  /** The bus and the three components `App.__init__` creates first. */
  method NewComponents(appearance: string) returns (b: EventBus<Callback>, sb: SideBar, sp: SamplePage, hp: HomePage)
    ensures fresh(b) && fresh(sb) && fresh(sp) && fresh(hp)
    ensures b.listeners == ComponentTable()
    ensures sb.Snapshot() == SidebarState([], {}, map[], None, appearance)
    ensures sp.Snapshot() == SampleState(INITIAL_ITEMS, false, 0, map[])
    ensures hp.newData == [] && hp.written == None
  {
    b := new EventBus<Callback>();
    SubscribedAllThree(b.listeners, (DEL_ALL_BUTTON, SideBarDelAllButton), (ADD_BUTTON, SideBarAddButton),
                       (SHOW_PAGE, SideBarSelectButton));
    sb := new SideBar(b, appearance);
    sp := new SamplePage(b);
    hp := new HomePage(b);
  }

  /** The listener table at the end of `App.__init__`'s subscriptions: the
      application adds SHOW_PAGE, after the sidebar's handler, and BUILD_PAGE. */
  function AppTable(): map<string, seq<Callback>>
  {
    Subscribed(Subscribed(ComponentTable(), SHOW_PAGE, AppShowPage), BUILD_PAGE, AppBuildPage)
  }

  /** The application's own subscriptions in `App.__init__`. */
  method SubscribeApp(b: EventBus<Callback>)
    requires b.listeners == ComponentTable()
    modifies b
    ensures b.listeners == AppTable()
  {
    b.Subscribe(SHOW_PAGE, AppShowPage);
    b.Subscribe(BUILD_PAGE, AppBuildPage);
  }

  class App {
    const bus: EventBus<Callback>
    const sidebar: SideBar
    const sample: SamplePage
    const home: HomePage
    /** `platform.system()`. */
    const system: string
    var pages: map<string, PageRef>
    var current: Option<PageRef>
    var shown: bool
    var span: nat
    /** Every setting page object constructed, numbered by position. */
    var instances: seq<SettingPage>
    /** The key and the values each page object in `instances` was built from. */
    ghost var sources: seq<(string, PageData)>
    /** The numbers of the page objects destroyed by a later `on_build_page`. */
    ghost var gone: set<nat>

    function ViewOf(): View
      reads this
    {
      View(pages, current, shown, span)
    }

    /** The invariant the application keeps: every page object ever built
        stays subscribed to GET_DATA, and holds the page name and the fields
        it was built with. */
    ghost predicate Valid()
      reads this, bus, sidebar, instances
    {
      && Wired(bus.listeners)
      && Listeners(bus.listeners, GET_DATA) == GetDataCallbacks(|instances|)
      && Sidebar.Valid(sidebar.Snapshot())
      && FIRST_PAGE_NAME in pages
      && BuiltFrom(instances, sources, gone)
      && (forall k | k in pages && pages[k].SettingRef? :: pages[k].instance < |instances|)
      && (current.Some? && current.value.SettingRef? ==> current.value.instance < |instances|)
    }

    /** `App.__init__`: the components are created and register their
        handlers; the application subscribes to SHOW_PAGE and BUILD_PAGE,
        then publishes ADD_BUTTON for the Home button and SHOW_PAGE for Home,
        which the sidebar and the application handle in subscription order. */
    constructor (appearance: string, system: string)
      ensures fresh(bus) && fresh(sidebar) && fresh(sample) && fresh(home)
      ensures Wired(bus.listeners) && Listeners(bus.listeners, GET_DATA) == []
      ensures instances == [] && this.system == system
      ensures ViewOf() == View(map[FIRST_PAGE_NAME := HomeRef], Some(HomeRef), true, 2)
      ensures sidebar.Snapshot() == SidebarState([Button(HEADER, FIRST_PAGE_NAME, 1, Highlighted)], {},
                                                 map[FIRST_PAGE_NAME := 0], Some(0), appearance)
      ensures sample.Snapshot() == SampleState(INITIAL_ITEMS, false, 0, map[])
      ensures home.newData == [] && home.written == None
      ensures Valid()
    {
      var b, sb, sp, hp := NewComponents(appearance);
      bus := b;
      sidebar := sb;
      sample := sp;
      home := hp;
      this.system := system;
      pages := map[FIRST_PAGE_NAME := HomeRef];
      current := None;
      shown := false;
      span := 0;
      instances := [];
      sources := [];
      gone := {};
      new;
      Init();
    }

    /** The rest of `App.__init__` once the components exist: the
        application's subscriptions, then the two publications. The sample
        page and the Home page are not touched. */
    method Init()
      requires bus.listeners == ComponentTable()
      requires sidebar.Snapshot() == SidebarState([], {}, map[], None, sidebar.appearance)
      requires ViewOf() == View(map[FIRST_PAGE_NAME := HomeRef], None, false, 0) && instances == [] && sources == [] && gone == {}
      requires sample.Snapshot() == SampleState(INITIAL_ITEMS, false, 0, map[])
      requires home.newData == [] && home.written == None
      modifies this, sidebar, bus
      ensures Wired(bus.listeners) && Listeners(bus.listeners, GET_DATA) == []
      ensures sidebar.Snapshot() == SidebarState([Button(HEADER, FIRST_PAGE_NAME, 1, Highlighted)], {},
                                                 map[FIRST_PAGE_NAME := 0], Some(0), old(sidebar.appearance))
      ensures ViewOf() == View(map[FIRST_PAGE_NAME := HomeRef], Some(HomeRef), true, 2)
      ensures instances == [] && sources == [] && gone == {}
      ensures sample.Snapshot() == SampleState(INITIAL_ITEMS, false, 0, map[])
      ensures home.newData == [] && home.written == None
      ensures Valid()
    {
      SubscribeApp(bus);
      AppTableWired();
      Start();
    }

    /** The two publications ending `App.__init__`: ADD_BUTTON for the Home
        button, then SHOW_PAGE for Home, which the sidebar handles before the
        application does. */
    method Start()
      requires Wired(bus.listeners) && Listeners(bus.listeners, GET_DATA) == []
      requires sidebar.Snapshot() == SidebarState([], {}, map[], None, sidebar.appearance)
      requires ViewOf() == View(map[FIRST_PAGE_NAME := HomeRef], None, false, 0) && instances == [] && sources == [] && gone == {}
      requires sample.Snapshot() == SampleState(INITIAL_ITEMS, false, 0, map[])
      requires home.newData == [] && home.written == None
      modifies this, sidebar
      ensures sample.Snapshot() == SampleState(INITIAL_ITEMS, false, 0, map[])
      ensures home.newData == [] && home.written == None
      ensures sidebar.Snapshot() == SidebarState([Button(HEADER, FIRST_PAGE_NAME, 1, Highlighted)], {},
                                                 map[FIRST_PAGE_NAME := 0], Some(0), old(sidebar.appearance))
      ensures ViewOf() == View(map[FIRST_PAGE_NAME := HomeRef], Some(HomeRef), true, 2)
      ensures instances == [] && sources == [] && gone == {}
      ensures Valid()
    {
      var added := bus.Emit(ADD_BUTTON, AddButton(HEADER, FIRST_PAGE_NAME));
      assert Callees(added) == [SideBarAddButton];
      assert LiveHeaderButtons(sidebar.Snapshot()) == {};
      var e := sidebar.OnAddButton(HEADER, FIRST_PAGE_NAME);
      var selected := bus.Emit(SHOW_PAGE, ShowPage(FIRST_PAGE_NAME));
      assert Callees(selected) == [SideBarSelectButton, AppShowPage];
      e := sidebar.OnSelectButton(FIRST_PAGE_NAME);
      e := OnShowPage(FIRST_PAGE_NAME);
    }

    /** `on_show_page`. */
    method OnShowPage(name: string) returns (err: Option<Error>)
      requires BuiltFrom(instances, sources, gone)
      requires current.Some? && current.value.SettingRef? ==> current.value.instance < |instances|
      modifies this
      ensures (ViewOf(), err) == ShowOutcome(old(ViewOf()), name, gone)
      ensures instances == old(instances) && sources == old(sources) && gone == old(gone)
    {
      if current.Some? {
        if current.value.SettingRef? && instances[current.value.instance].destroyed {
          return Some(TclError);
        }
        shown := false;
      }
      if name !in pages {
        return Some(KeyError);
      }
      current := Some(pages[name]);
      if name != FIRST_PAGE_NAME {
        span := 1;
      } else {
        span := 2;
      }
      shown := true;
      err := None;
    }

    /** A click on the sidebar button of `name` publishes SHOW_PAGE: the
        sidebar's handler runs first, and its KeyError stops the
        application's handler from running. */
    method ClickButton(name: string) returns (err: Option<Error>)
      requires Valid()
      modifies this, sidebar
      ensures Valid()
      ensures instances == old(instances) && sources == old(sources) && gone == old(gone)
      ensures var (sb, selectErr) := SelectOutcome(old(sidebar.Snapshot()), name);
        && sidebar.Snapshot() == sb
        && (selectErr.Some? ==> err == selectErr && ViewOf() == old(ViewOf()))
        && (selectErr.None? ==> (ViewOf(), err) == ShowOutcome(old(ViewOf()), name, gone))
    {
      var calls := bus.Emit(SHOW_PAGE, ShowPage(name));
      assert Callees(calls) == [SideBarSelectButton, AppShowPage];
      SidebarProofs.SelectEffect(sidebar.Snapshot(), name);
      err := sidebar.OnSelectButton(name);
      if err.Some? {
        return;
      }
      err := OnShowPage(name);
    }

    /** The ADD_BUTTON publication for a page being built. */
    method AddPageButton(key: string)
      requires Valid()
      modifies sidebar
      ensures Valid()
      ensures AddOutcome(old(sidebar.Snapshot()), MAIN, key) == Success(sidebar.Snapshot())
    {
      var added := bus.Emit(ADD_BUTTON, AddButton(MAIN, key));
      assert Callees(added) == [SideBarAddButton];
      SidebarProofs.AddEffect(sidebar.Snapshot(), MAIN, key);
      var e := sidebar.OnAddButton(MAIN, key);
    }

    /** `SettingPage(self.sub, key, data[key])` up to its CHANGE_CONF
        publication, as page object number `n`: it subscribes to GET_DATA,
        builds its fields, and the data it would publish is returned. */
    method NewPage(key: string, values: PageData, n: nat) returns (page: SettingPage, data: Result<PageData, Error>)
      modifies bus
      ensures fresh(page) && page.pageName == key && page.instance == n
      ensures page.entryItems == BuildFields(key, values).entries && !page.destroyed
      ensures bus.listeners == Subscribed(old(bus.listeners), GET_DATA, SettingGetData(n))
      ensures data == PageValues(key, values)
    {
      page := new SettingPage(bus, key, n);
      var row, r := page.Populate(values);
      if r.Failure? {
        return page, Failure(r.error);
      }
      data := Success(r.value.values);
    }

    /** The page object built for (key, values) joins `instances`. */
    method ConstructPage(key: string, values: PageData) returns (data: Result<PageData, Error>)
      requires Valid()
      modifies this, bus
      ensures Valid()
      ensures data == PageValues(key, values)
      ensures |instances| == |old(instances)| + 1 && instances[..|old(instances)|] == old(instances)
      ensures fresh(instances[|old(instances)|])
      ensures sources == old(sources) + [(key, values)] && gone == old(gone)
      ensures ViewOf() == old(ViewOf())
    {
      GetDataCallbacksNext(|instances|);
      WiredGetData(bus.listeners, SettingGetData(|instances|));
      var page;
      page, data := NewPage(key, values, |instances|);
      Adopt(page, key, values);
    }

    /** The page object just built for (key, values) joins `instances`. */
    method Adopt(page: SettingPage, key: string, values: PageData)
      requires Wired(bus.listeners) && Listeners(bus.listeners, GET_DATA) == GetDataCallbacks(|instances| + 1)
      requires Sidebar.Valid(sidebar.Snapshot()) && FIRST_PAGE_NAME in pages
      requires forall k | k in pages && pages[k].SettingRef? :: pages[k].instance < |instances|
      requires current.Some? && current.value.SettingRef? ==> current.value.instance < |instances|
      requires BuiltFrom(instances, sources, gone)
      requires page.instance == |instances| && page.pageName == key
      requires page.entryItems == BuildFields(key, values).entries && !page.destroyed
      modifies this
      ensures Valid()
      ensures instances == old(instances) + [page] && sources == old(sources) + [(key, values)] && gone == old(gone)
      ensures ViewOf() == old(ViewOf())
    {
      instances, sources := instances + [page], sources + [(key, values)];
    }

    /** One iteration of the loop of `on_build_page`, for page object
        number `next`. */
    method BuildOne(key: string, values: PageData, ghost st: Stage, ghost next: nat) returns (err: Option<Error>)
      requires Valid() && next == |instances|
      requires st == Stage(pages, sidebar.Snapshot(), sample.Snapshot(), st.built, None)
      modifies this, bus, sidebar, sample
      ensures Valid()
      ensures Stage(pages, sidebar.Snapshot(), sample.Snapshot(), st.built + 1, err) == BuildStep(st, next, key, values, system)
      ensures |instances| == next + 1 && instances[..next] == old(instances)
      ensures sources == old(sources) + [(key, values)] && gone == old(gone)
      ensures current == old(current) && shown == old(shown) && span == old(span)
    {
      AddPageButton(key);
      err := BuildPage(key, values, st.(sidebar := sidebar.Snapshot()), next);
    }

    /** The iteration once the button is added. */
    method BuildPage(key: string, values: PageData, ghost st: Stage, ghost next: nat) returns (err: Option<Error>)
      requires Valid() && next == |instances|
      requires st == Stage(pages, sidebar.Snapshot(), sample.Snapshot(), st.built, None)
      modifies this, bus, sample
      ensures Valid()
      ensures Stage(pages, sidebar.Snapshot(), sample.Snapshot(), st.built + 1, err) == PageStep(st, next, key, values, system)
      ensures |instances| == next + 1 && instances[..next] == old(instances)
      ensures sources == old(sources) + [(key, values)] && gone == old(gone)
      ensures current == old(current) && shown == old(shown) && span == old(span)
    {
      var data := ConstructPage(key, values);
      if data.Failure? {
        return Some(data.error);
      }
      err := PublishConf(key, data.value, |instances| - 1);
    }

    /** The CHANGE_CONF a new page publishes for `key` at the end of its
        construction reaches the sample page; only when that raises nothing
        does `on_build_page` store page object number `n` under `key`. */
    method PublishConf(key: string, d: PageData, n: nat) returns (err: Option<Error>)
      requires Valid() && n < |instances|
      modifies this, sample
      ensures Valid()
      ensures var r := ChangeConfOutcome(old(sample.Snapshot()), key, d, FontOsKey(system));
        (err, sample.Snapshot(), pages)
          == if r.Success? then (None, r.value, old(pages)[key := SettingRef(n)])
             else (Some(r.error), old(sample.Snapshot()), old(pages))
      ensures instances == old(instances) && sources == old(sources) && gone == old(gone)
      ensures current == old(current) && shown == old(shown) && span == old(span)
    {
      var conf := bus.Emit(CHANGE_CONF, ChangeConf(key, d));
      assert Callees(conf) == [SampleChangeConf];
      err := sample.OnChangeConf(key, d, system);
      if err.None? {
        pages := pages[key := SettingRef(n)];
      }
    }

    /** The iteration for the `i`-th key of `data` as a step of the loop. */
    method BuildNext(data: Document, i: nat, ghost st: Stage, ghost next: nat) returns (err: Option<Error>)
      requires Valid() && next == |instances|
      requires i < |data| && st == Stage(pages, sidebar.Snapshot(), sample.Snapshot(), st.built, None)
      modifies this, bus, sidebar, sample
      ensures Valid()
      ensures RunFrom(data, i, st, next, system)
           == if err.Some? then Stage(pages, sidebar.Snapshot(), sample.Snapshot(), st.built + 1, err)
              else RunFrom(data, i + 1, Stage(pages, sidebar.Snapshot(), sample.Snapshot(), st.built + 1, None),
                           next + 1, system)
      ensures |instances| == next + 1 && instances[..next] == old(instances)
      ensures sources == old(sources) + [data[i]] && gone == old(gone)
      ensures current == old(current) && shown == old(shown) && span == old(span)
    {
      RunFromStep(data, i, st, next, system);
      err := BuildOne(data[i].0, data[i].1, st, next);
    }

    /** The delete loop of `on_build_page`: every page but Home's leaves the
        table and its page object is destroyed. */
    method DeletePages()
      requires Valid()
      modifies this, instances
      ensures Valid()
      ensures pages == KeptPages(old(pages))
      ensures gone == old(gone) + SettingInstances(old(pages))
      ensures current == old(current) && shown == old(shown) && span == old(span)
      ensures instances == old(instances) && sources == old(sources)
    {
      var keys := pages.Keys;
      assert Removed(pages, keys) == map[] && Remaining(pages, keys) == pages;
      while keys != {}
        invariant keys <= old(pages).Keys
        invariant pages == Remaining(old(pages), keys)
        invariant gone == old(gone) + SettingInstances(Removed(old(pages), keys))
        invariant current == old(current) && shown == old(shown) && span == old(span)
        invariant instances == old(instances) && sources == old(sources)
        invariant Valid()
        decreases keys
      {
        var k :| k in keys;
        RemovedStep(old(pages), keys, k);
        if k != FIRST_PAGE_NAME {
          ghost var before := gone;
          assert k in pages && pages[k] == old(pages)[k];
          DeletePage(k);
          assert gone == before + if old(pages)[k].SettingRef? then {old(pages)[k].instance} else {};
        }
        keys := keys - {k};
      }
      assert Removed(old(pages), {}) == old(pages);
      assert Remaining(old(pages), {}) == KeptPages(old(pages));
    }

    /** One iteration of the delete loop, for a name other than Home's. */
    method DeletePage(k: string)
      requires Valid() && k in pages && k != FIRST_PAGE_NAME
      modifies this, instances
      ensures Valid()
      ensures pages == old(pages) - {k}
      ensures gone == old(gone) + if old(pages)[k].SettingRef? then {old(pages)[k].instance} else {}
      ensures current == old(current) && shown == old(shown) && span == old(span)
      ensures instances == old(instances) && sources == old(sources)
    {
      if pages[k].SettingRef? {
        DestroyInstance(pages[k].instance);
      }
      pages := pages - {k};
    }

    /** `destroy()` on page object number `j`. */
    method DestroyInstance(j: nat)
      requires Valid() && j < |instances|
      modifies this, instances[j]
      ensures Valid()
      ensures gone == old(gone) + {j}
      ensures ViewOf() == old(ViewOf()) && instances == old(instances) && sources == old(sources)
    {
      var page := instances[j];
      page.Destroy();
      gone := gone + {j};
      forall i | 0 <= i < |instances| && i != j
        ensures instances[i] != page && instances[i].destroyed == (i in gone)
      {
        assert instances[i].instance != page.instance;
      }
    }

    /** `on_build_page`: DEL_ALL_BUTTON reaches the sidebar, every page but
        the one under Home is deleted and destroyed, then one page per key of `data` is
        built in order, stopping at the first exception. */
    method OnBuildPage(data: Document) returns (err: Option<Error>)
      requires Valid()
      modifies this, bus, sidebar, sample, instances
      ensures Valid()
      ensures var r := RunFrom(data, 0, Stage(KeptPages(old(pages)), DelAll(old(sidebar.Snapshot()), FIRST_PAGE_NAME),
                                           old(sample.Snapshot()), 0, None), |old(instances)|, system);
        && |instances| == |old(instances)| + r.built && instances[..|old(instances)|] == old(instances)
        && Stage(pages, sidebar.Snapshot(), sample.Snapshot(), r.built, err) == r
        && sources == old(sources) + data[..r.built]
        && gone == old(gone) + SettingInstances(old(pages))
      ensures current == old(current) && shown == old(shown) && span == old(span)
    {
      var calls := bus.Emit(DEL_ALL_BUTTON, DelAllButton(FIRST_PAGE_NAME));
      assert Callees(calls) == [SideBarDelAllButton];
      SidebarProofs.DelAllEffect(sidebar.Snapshot(), FIRST_PAGE_NAME);
      ghost var cleared := DelAll(sidebar.Snapshot(), FIRST_PAGE_NAME);
      sidebar.OnDelAllButton(FIRST_PAGE_NAME);
      DeletePages();
      err := BuildAll(data, Stage(KeptPages(old(pages)), cleared, old(sample.Snapshot()), 0, None));
    }

    /** The loop of `on_build_page` over the keys of `data`. Destroyed and
        failed page objects stay in `instances`, subscribed to GET_DATA. */
    method BuildAll(data: Document, ghost start: Stage) returns (err: Option<Error>)
      requires Valid()
      requires start == Stage(pages, sidebar.Snapshot(), sample.Snapshot(), 0, None)
      modifies this, bus, sidebar, sample
      ensures Valid()
      ensures var r := RunFrom(data, 0, start, |old(instances)|, system);
        && |instances| == |old(instances)| + r.built && instances[..|old(instances)|] == old(instances)
        && Stage(pages, sidebar.Snapshot(), sample.Snapshot(), r.built, err) == r
        && sources == old(sources) + data[..r.built]
        && gone == old(gone)
      ensures current == old(current) && shown == old(shown) && span == old(span)
    {
      var base := |instances|;
      var i := 0;
      while i < |data|
        invariant 0 <= i <= |data|
        invariant Valid()
        invariant RunFrom(data, i, Stage(pages, sidebar.Snapshot(), sample.Snapshot(), i, None), base + i, system)
               == RunFrom(data, 0, start, base, system)
        invariant |instances| == base + i && instances[..base] == old(instances)
        invariant sources == old(sources) + data[..i] && gone == old(gone)
        invariant current == old(current) && shown == old(shown) && span == old(span)
      {
        ghost var before := Stage(pages, sidebar.Snapshot(), sample.Snapshot(), i, None);
        PrefixNext(old(sources), data, i);
        err := BuildNext(data, i, before, base + i);
        if err.Some? {
          return;
        }
        i := i + 1;
      }
      err := None;
    }
  }

  /** The seven event names differ from one another. */
  lemma EventNamesDistinct()
    ensures DEL_ALL_BUTTON[0] == 'd' && ADD_BUTTON[0] == 'a' && SHOW_PAGE[0] == 's' && CHANGE_CONF[0] == 'c'
    ensures RECIEVE_DATA[0] == 'r' && BUILD_PAGE[0] == 'b' && GET_DATA[0] == 'g'
  {
  }

  /** What each event's list holds once the sidebar is registered. */
  lemma SidebarListeners()
    ensures Listeners(SidebarTable(), DEL_ALL_BUTTON) == [SideBarDelAllButton]
    ensures Listeners(SidebarTable(), ADD_BUTTON) == [SideBarAddButton]
    ensures Listeners(SidebarTable(), SHOW_PAGE) == [SideBarSelectButton]
    ensures forall e | e in {CHANGE_CONF, RECIEVE_DATA, BUILD_PAGE, GET_DATA} :: Listeners(SidebarTable(), e) == []
  {
    EventNamesDistinct();
  }

  /** What each event's list holds once the components are registered. */
  lemma ComponentListeners()
    ensures Listeners(ComponentTable(), DEL_ALL_BUTTON) == [SideBarDelAllButton]
    ensures Listeners(ComponentTable(), ADD_BUTTON) == [SideBarAddButton]
    ensures Listeners(ComponentTable(), SHOW_PAGE) == [SideBarSelectButton]
    ensures Listeners(ComponentTable(), CHANGE_CONF) == [SampleChangeConf]
    ensures Listeners(ComponentTable(), RECIEVE_DATA) == [HomeRecieveData]
    ensures Listeners(ComponentTable(), BUILD_PAGE) == []
    ensures Listeners(ComponentTable(), GET_DATA) == []
  {
    EventNamesDistinct();
    SidebarListeners();
  }

  /** The table `App.__init__` leaves is wired and nothing listens to
      GET_DATA yet. */
  lemma AppTableWired()
    ensures Wired(AppTable()) && Listeners(AppTable(), GET_DATA) == []
  {
    ComponentListeners();
  }

  /** A subscription to GET_DATA leaves the table wired. */
  lemma WiredGetData(table: map<string, seq<Callback>>, callback: Callback)
    requires Wired(table)
    ensures Wired(Subscribed(table, GET_DATA, callback))
  {
    EventNamesDistinct();
  }

  /** One more page subscribed to GET_DATA. */
  lemma GetDataCallbacksNext(n: nat)
    ensures GetDataCallbacks(n + 1) == GetDataCallbacks(n) + [SettingGetData(n)]
  {
  }

  /** One more key of the document taken. */
  lemma PrefixNext<T>(prior: seq<T>, s: seq<T>, i: nat)
    requires i < |s|
    ensures prior + s[..i] + [s[i]] == prior + s[..i + 1]
  {
    assert s[..i + 1] == s[..i] + [s[i]];
  }

  /** The loop from a key that is not past the end is that key's iteration. */
  lemma RunFromStep(data: Document, i: nat, st: Stage, next: nat, system: string)
    requires i < |data| && st.error.None?
    ensures RunFrom(data, i, st, next, system) == RunStep(data, i, st, next, system)
  {
  }
}
