/** What the application promises: `on_show_page` shows exactly the page
    asked for, and `on_build_page` on a document whose pages all build leaves
    one page and one sidebar button per key of the document, beside Home. */
module ApplicationProofs {
  import opened Types
  import opened Dicts
  import opened Sample
  import opened SampleProofs
  import opened SettingProofs
  import opened Sidebar
  import opened Application

  /** `on_show_page(name)` raises TclError and changes nothing when the
      current page object has been destroyed. Otherwise it raises KeyError
      exactly for a name without a page, and the page that was current is
      off the grid either way; a known name becomes the current page, shown
      across two columns exactly when it is Home. The pages table never
      changes. */
  lemma ShowEffect(v: View, name: string, gone: set<nat>)
    ensures var (r, err) := ShowOutcome(v, name, gone);
      && r.pages == v.pages
      && (CurrentGone(v, gone) ==> err == Some(TclError) && r == v)
      && (!CurrentGone(v, gone) ==> (err.Some? <==> name !in v.pages))
      && (!CurrentGone(v, gone) && err.Some? ==> err == Some(KeyError) && r.current == v.current && (v.current.Some? ==> !r.shown))
      && (err.None? ==> r.current == Some(v.pages[name]) && r.shown && (r.span == 2 <==> name == FIRST_PAGE_NAME))
      && (err.None? ==> r.span == 1 || r.span == 2)
  {
  }

  /** The keys of `data` from the `i`-th on. */
  function KeysFrom(data: Document, i: nat): (ks: set<string>)
    ensures forall j | i <= j < |data| :: data[j].0 in ks
    ensures forall k | k in ks :: exists j | i <= j < |data| :: data[j].0 == k
  {
    set j | i <= j < |data| :: data[j].0
  }

  /** The pages of `data` from the `i`-th on all build and are taken by the
      sample page. */
  predicate BuildsFrom(data: Document, i: nat, system: string)
  {
    forall j | i <= j < |data| :: PageKeeps(data[j].1) && Accepted(data[j].0, data[j].1, FontOsKey(system))
  }

  /** A page that builds is stored under its key, its button under the same
      key, and nothing else in either table changes. */
  lemma BuildStepSucceeds(st: Stage, next: nat, key: string, values: PageData, system: string)
    requires st.error.None? && PageKeeps(values) && Accepted(key, values, FontOsKey(system))
    ensures var r := BuildStep(st, next, key, values, system);
      && r.error.None?
      && r.pages == st.pages[key := SettingRef(next)]
      && r.sidebar.items.Keys == st.sidebar.items.Keys + {key}
  {
    PageRoundTrip(key, values);
    var sidebar := AddOutcome(st.sidebar, MAIN, key).value;
    AcceptedIff(st.sample, key, values, FontOsKey(system));
    assert PageValues(key, values) == Success(values);
  }

  /** The loop over a document whose pages all build raises nothing and
      builds one page object per key. */
  lemma {:induction false} RunFromSucceeds(data: Document, i: nat, st: Stage, next: nat, system: string)
    requires i <= |data| && st.error.None? && BuildsFrom(data, i, system)
    ensures RunFrom(data, i, st, next, system).error.None?
    ensures RunFrom(data, i, st, next, system).built == st.built + |data| - i
    decreases |data| - i
  {
    if i < |data| {
      var after := BuildStep(st, next, data[i].0, data[i].1, system);
      BuildStepSucceeds(st, next, data[i].0, data[i].1, system);
      RunFromNext(data, i, st, next, system);
      RunFromSucceeds(data, i + 1, after, next + 1, system);
    }
  }

  /** Over such a document the loop adds each key to the pages table, as a
      setting page, and keeps every other page's entry. */
  lemma {:induction false} RunFromPages(data: Document, i: nat, st: Stage, next: nat, system: string)
    requires i <= |data| && st.error.None? && BuildsFrom(data, i, system)
    ensures RunFrom(data, i, st, next, system).pages.Keys == st.pages.Keys + KeysFrom(data, i)
    ensures forall k | k in st.pages && k !in KeysFrom(data, i) :: RunFrom(data, i, st, next, system).pages[k] == st.pages[k]
    ensures forall k | k in KeysFrom(data, i) :: RunFrom(data, i, st, next, system).pages[k].SettingRef?
    decreases |data| - i
  {
    if i < |data| {
      var after := BuildStep(st, next, data[i].0, data[i].1, system);
      BuildStepSucceeds(st, next, data[i].0, data[i].1, system);
      RunFromNext(data, i, st, next, system);
      RunFromPages(data, i + 1, after, next + 1, system);
      KeysFromNext(data, i);
      PagesStep(st.pages, data[i].0, SettingRef(next), RunFrom(data, i, st, next, system).pages, KeysFrom(data, i + 1));
    }
  }

  /** Writing `key` and then the keys `later` adds `key` and `later` and
      keeps every other entry. */
  lemma PagesStep(pages: map<string, PageRef>, key: string, v: PageRef, r: map<string, PageRef>, later: set<string>)
    requires r.Keys == pages[key := v].Keys + later
    requires forall k | k in pages[key := v] && k !in later :: r[k] == pages[key := v][k]
    ensures r.Keys == pages.Keys + ({key} + later)
    ensures forall k | k in pages && k !in {key} + later :: r[k] == pages[k]
  {
  }

  /** Over such a document the loop adds each key to the sidebar's table. */
  lemma {:induction false} RunFromButtons(data: Document, i: nat, st: Stage, next: nat, system: string)
    requires i <= |data| && st.error.None? && BuildsFrom(data, i, system)
    ensures RunFrom(data, i, st, next, system).sidebar.items.Keys == st.sidebar.items.Keys + KeysFrom(data, i)
    decreases |data| - i
  {
    if i < |data| {
      var after := BuildStep(st, next, data[i].0, data[i].1, system);
      BuildStepSucceeds(st, next, data[i].0, data[i].1, system);
      RunFromNext(data, i, st, next, system);
      RunFromButtons(data, i + 1, after, next + 1, system);
      KeysFromNext(data, i);
    }
  }

  /** A step that raises nothing hands on to the next key. */
  lemma RunFromNext(data: Document, i: nat, st: Stage, next: nat, system: string)
    requires i < |data| && st.error.None? && BuildStep(st, next, data[i].0, data[i].1, system).error.None?
    ensures RunFrom(data, i, st, next, system)
         == RunFrom(data, i + 1, BuildStep(st, next, data[i].0, data[i].1, system), next + 1, system)
  {
    RunFromStep(data, i, st, next, system);
  }

  /** The keys from the `i`-th on are the `i`-th and those after it. */
  lemma KeysFromNext(data: Document, i: nat)
    requires i < |data|
    ensures KeysFrom(data, i) == {data[i].0} + KeysFrom(data, i + 1)
  {
  }

  /** `on_build_page` on a document whose pages all build leaves Home and
      exactly the keys of the document in the pages table, each as a setting
      page, and in the sidebar's table. Home stays the Home page unless the document has a page
      of that name. */
  lemma RebuildSucceeds(pages: map<string, PageRef>, sb: SidebarState, s: SampleState, data: Document, next: nat,
                        system: string)
    requires FIRST_PAGE_NAME in pages && BuildsFrom(data, 0, system)
    ensures var r := RunFrom(data, 0, Stage(KeptPages(pages), DelAll(sb, FIRST_PAGE_NAME), s, 0, None), next, system);
      && r.error.None? && r.built == |data|
      && r.pages.Keys == {FIRST_PAGE_NAME} + KeysFrom(data, 0)
      && r.sidebar.items.Keys == (if FIRST_PAGE_NAME in sb.items then {FIRST_PAGE_NAME} else {}) + KeysFrom(data, 0)
      && (FIRST_PAGE_NAME !in KeysFrom(data, 0) ==> r.pages[FIRST_PAGE_NAME] == pages[FIRST_PAGE_NAME])
      && (forall k | k in KeysFrom(data, 0) :: r.pages[k].SettingRef?)
  {
    var cleared := DelAll(sb, FIRST_PAGE_NAME);
    assert KeptPages(pages).Keys == {FIRST_PAGE_NAME};
    assert cleared.items.Keys == if FIRST_PAGE_NAME in sb.items then {FIRST_PAGE_NAME} else {};
    var start := Stage(KeptPages(pages), cleared, s, 0, None);
    RunFromSucceeds(data, 0, start, next, system);
    RunFromPages(data, 0, start, next, system);
    RunFromButtons(data, 0, start, next, system);
  }

  /** Whatever happens, the loop only adds keys of the document to the
      pages table and never removes one. */
  lemma {:induction false} RunFromKeys(data: Document, i: nat, st: Stage, next: nat, system: string)
    requires i <= |data| && st.error.None?
    ensures var r := RunFrom(data, i, st, next, system);
      st.pages.Keys <= r.pages.Keys <= st.pages.Keys + KeysFrom(data, i)
    decreases |data| - i
  {
    if i < |data| {
      var after := BuildStep(st, next, data[i].0, data[i].1, system);
      RunFromStep(data, i, st, next, system);
      assert KeysFrom(data, i) == {data[i].0} + KeysFrom(data, i + 1);
      if after.error.None? {
        assert after.pages == st.pages[data[i].0 := SettingRef(next)];
        RunFromKeys(data, i + 1, after, next + 1, system);
      }
    }
  }
}
