# CustomTkinter theme editor: a Dafny model of its core

The application edits CustomTkinter colour themes. A theme document maps
each widget kind (`CTkButton`, `CTkFrame`, `CTkFont`, …) to its settings.
The window has four parts:

- a sidebar with one button per widget kind;
- a Home page that loads and saves theme documents;
- one setting page per widget kind, with one text entry per setting (two
  for a light/dark colour, one per operating system for a font);
- a sample page of live widgets that is reconfigured whenever a setting
  changes.

The components talk only through an in-process publish/subscribe event bus.

The model follows the source's structure:

- `Base` is the bus and the registration every component performs. `Emit`
  returns the calls it makes, in subscription order, and the callers
  dispatch those calls explicitly.
- `Setting` is the setting page. The constructor classifies each key and
  builds its cells, threading the layout row. `get_data` reads the cells
  back into a document. `on_trace_var` and `on_get_data` publish that data.
  `SettingProofs` states which documents survive being built and read
  back, and how the two key classifications relate.
- `Sample` is the sample page: which widgets each CHANGE_CONF configures,
  the disabled switch and the top-level window. `SampleProofs` holds the
  reach and lookup properties, and the font lookup under
  `platform.system()`.
- `Sidebar` is the sidebar's buttons, its table and its selection.
  `SidebarProofs` holds its invariant: only the current button is
  highlighted.
- `Home` is the Home page's `load_file`, `on_save_file` and
  `on_recieve_data`, with `new_data` as an ordered dictionary.
- `Application` is `App.__init__`, `on_show_page` and `on_build_page`, as a
  class whose state is the pages table plus every setting page object ever
  built. `ApplicationProofs` states what a rebuild leaves in the pages
  table and the sidebar.
- `Session` is a save, where GET_DATA reaches every page object and each
  reply reaches the Home page, a whole load-then-save session, and a
  second load whose destroyed pages still answer GET_DATA.
- `Dicts` and `Text` model the Python dictionary and string operations used
  above: insertion-ordered `d[k] = v`, `sub in s`, `s.split(sep)[0]`,
  `str(n)` and `int(s)`.

Python dictionaries whose order is observable are association lists
(`Dicts.Dict`). The exceptions the model raises are `Error` values:
KeyError, ValueError, TypeError, IndexError and AttributeError from Python,
and Tk's TclError for a destroyed widget that is used again: an entry read
by `get_data`, a sidebar button reset by `on_select_button`, or a page
taken off the grid by `on_show_page`. Tk errors for option values Tk
rejects are not modelled (see "Left out").

## Model

| member | source | states |
|---|---|---|
| Dicts.Get | src/lib/components/home.py:137 | a lookup misses exactly when the key is not among the dictionary's keys |
| Dicts.PutKeys | src/lib/components/home.py:137 | `d[k] = v` keeps the position of a present key and appends a new key at the end |
| Dicts.GetPut | src/lib/components/home.py:137 | after `d[k] = v`, `k` reads `v` and every other key reads as before |
| Dicts.PutDistinct | src/lib/components/home.py:137 | writing never removes a key and keeps keys distinct |
| Dicts.PutFresh | src/lib/components/home.py:137 | writing a key that is absent appends the pair |
| Dicts.PutPairs | src/lib/components/home.py:137 | every pair after a write was there before or is the written one |
| Text.BeforeFirst | src/lib/components/setting.py:284 | `split('-')[0]` is a prefix with no separator in it, and is all of the string when there is no separator |
| Text.BeforeFirstStops | src/lib/components/setting.py:284 | the first segment of `p + rest` is `p` when `p` has no separator and `rest` starts with one |
| Text.NatText | src/lib/components/setting.py:198-205 | `str(n)` of a natural number is a non-empty run of digits |
| Text.ParseDecimal | src/lib/components/setting.py:265 | `int(str(n)) == n` for every integer |
| Text.DigitsText | src/lib/components/setting.py:265 | a digit run without a leading zero is `str` of the number it denotes |
| Text.ParseCanonical | src/lib/components/setting.py:272 | a text that parses and is written as `str` writes numbers is `str` of its value |
| Base.EventBus.constructor | src/lib/components/base.py:17-18 | a new bus has no listeners |
| Base.EventBus.Subscribe | src/lib/components/base.py:20-28 | the callback is appended to the event's list, which is created if absent; the other lists are unchanged |
| Base.Subscribed | src/lib/components/base.py:28 | the event's list gains the callback at its end, the event becomes a key, and every other event's list is unchanged |
| Base.EventBus.Emit | src/lib/components/base.py:30-38 | one call per registered callback, in subscription order, all with the same arguments; none for an unknown event; the table is not changed |
| Base.Callees | src/lib/components/base.py:37-38 | the callbacks that a list of calls runs, in order |
| Base.EmitOnFreshBus | src/lib/components/base.py:17-38 | emitting on a freshly built bus calls nothing |
| Base.SubscribeTwiceRunsTwice | src/lib/components/base.py:28 | there is no de-duplication: subscribing a callback twice adds two runs per emit |
| Base.Register | src/lib/components/base.py:47-54 | a component subscribes each pair `register_events` returns, in order, and subscribes nothing for None |
| Base.SubscribedAllThree | src/lib/components/base.py:51-54 | registering three pairs is three subscriptions in that order |
| Base.SubscribedAllEffect | src/lib/components/base.py:51-54 | with distinct event names, each listed event's list gains exactly its callback and every other list is unchanged |
| Setting.SettingPage.constructor | src/lib/components/setting.py:54-62 | the page keeps its name and `on_get_data` is subscribed to GET_DATA; no entries yet |
| Setting.SettingPage.CreateEntryColor | src/lib/components/setting.py:135-178 | a list gives light and dark cells from its first two items (IndexError when shorter); a string gives a light cell and an empty dark cell; other values raise TypeError; on success it takes one row |
| Setting.SettingPage.CreateEntryNumber | src/lib/components/setting.py:180-208 | one cell holding the int's decimal text or the string; one row |
| Setting.SettingPage.CreateEntryFont | src/lib/components/setting.py:210-247 | the empty sub-dict is stored first; then one cell per sub-key, each named `page-key-subkey`, one row each; a value that is not a dict raises AttributeError |
| Setting.SettingPage.CreateEntry | src/lib/components/setting.py:83-91 | a key containing "color" is a colour; else one containing a number mark is a number; else an exact operating-system name is a font; else ValueError and nothing is built |
| Setting.SettingPage.Populate | src/lib/components/setting.py:72-97 | the entries are those the constructor loop builds; the first exception stops it and keeps the entries built so far; otherwise CHANGE_CONF is published with the page's name and data |
| Setting.SettingPage.CreateEntries | src/lib/components/setting.py:74-91 | the constructor's loop leaves the entries, the row and the first exception that `BuildFields` gives, and does not destroy the page |
| Setting.SettingPage.Destroy | src/app.py:105 | `destroy()` marks the page destroyed and keeps its entries and its GET_DATA subscription |
| Setting.ErrorSticks | src/lib/components/setting.py:74-91 | once the constructor has raised, later settings change nothing |
| Setting.SettingPage.GetData | src/lib/components/setting.py:249-278 | `get_data` encodes the entries in order, or raises the first exception; on a destroyed page the first entry widget read raises TclError |
| Setting.EncodeErrorSticks | src/lib/components/setting.py:255-278 | once `get_data` has raised, later entries change nothing |
| Setting.SettingPage.OnTraceVar | src/lib/components/setting.py:280-290 | CHANGE_CONF for the item named before the first '-' of the variable name, with the page's data, exactly when reading the data does not raise |
| Setting.SettingPage.OnGetData | src/lib/components/setting.py:292-299 | RECIEVE_DATA with the page name and its data exactly when `get_data` succeeds; otherwise the exception `get_data` raised |
| SettingProofs.ClassifyReadAgrees | src/lib/components/setting.py:257-277 | every key the constructor accepts is read back as the same kind, so the "do not support" ValueError of `get_data` is unreachable |
| SettingProofs.FontKeysWiderOnRead | src/lib/components/setting.py:268 | "Linux_font" is rejected when built but read as a font |
| SettingProofs.VarNameRecoversPage | src/lib/components/setting.py:284 | `on_trace_var` gets the page name back from a variable name exactly when the page name has no '-' |
| SettingProofs.ColorRoundTripIff | src/lib/components/setting.py:257-262 | a colour comes back unchanged exactly when it is a list of two different non-empty strings, or a string whose first two characters differ |
| SettingProofs.EncodeColorOneSided | src/lib/components/setting.py:259-262 | with one side empty the other text is kept; fewer than two characters raise IndexError; a doubled first character collapses to that character |
| SettingProofs.NumberRoundTripIff | src/lib/components/setting.py:263-267 | a number comes back unchanged exactly when it is an int; a string that parses comes back as an int; one that does not is dropped |
| SettingProofs.ScalarRoundTrip | src/lib/components/setting.py:270-274 | a font sub-value comes back unchanged exactly when it is an int or a string that does not parse |
| SettingProofs.FontCellsDistinct | src/lib/components/setting.py:229-246 | with distinct sub-keys there is one cell per sub-key, in order, named `page-key-subkey` and holding its text |
| SettingProofs.EncodeFontDistinct | src/lib/components/setting.py:269-274 | with distinct cell keys every cell is read once, in order |
| SettingProofs.EncodeFontKeysDistinct | src/lib/components/setting.py:269-274 | the sub-dict read back never repeats a key |
| SettingProofs.FontRoundTripIff | src/lib/components/setting.py:228-274 | a font sub-dict comes back unchanged exactly when its keys are distinct and every sub-value round-trips |
| SettingProofs.FieldRoundTrip | src/lib/components/setting.py:83-91 | a setting that round-trips builds without error, adds its key and is read back as itself |
| SettingProofs.PageRoundTrip | src/lib/components/setting.py:74-91 | building a page from settings that all round-trip, with distinct keys, and reading it back gives the same settings in the same order |
| SettingProofs.PageRoundTripStep | src/lib/components/setting.py:75-91 | the inductive step: one more setting with a new key |
| SettingProofs.BuiltEntriesFit | src/lib/components/setting.py:135-247 | every entry the constructor stores, even when it stops early, has the shape its key calls for |
| SettingProofs.FittingEntriesOnlyIndexError | src/lib/components/setting.py:255-278 | reading entries of the right shape fails only with the IndexError of a colour shorter than two characters |
| SettingProofs.BuiltPageReadsBack | src/lib/components/setting.py:249-278 | `get_data` on a built page raises neither ValueError nor a shape mismatch |
| SettingProofs.DestroyedPageRead | src/lib/components/setting.py:255-278 | on a destroyed page built from settings that keep, `get_data` raises TclError exactly when the page has an entry widget (a colour, a number, or a font with a sub-key); otherwise it still reads the settings back |
| SettingProofs.DestroyedPageReadStep | src/lib/components/setting.py:255-278 | the inductive step: one more setting read from a destroyed page |
| SettingProofs.BuildRows | src/lib/components/setting.py:74-91 | a page built without error ends on the row given by one row per colour or number and one per font sub-key |
| Sample.Lookup | src/lib/components/sample.py:266-275 | the keyword arguments `values[key]`: KeyError exactly when some key is missing; otherwise exactly those keys, each with its value |
| Sample.ConfiguredAll | src/lib/components/sample.py:386-396 | each target gets the attributes; every other target is unchanged |
| Sample.FontOsKey | src/lib/components/sample.py:421 | 'Darwin' becomes 'macOS' and every other system name is unchanged (corrected) |
| Sample.FontOf | src/lib/components/sample.py:421-426 | the font succeeds exactly when `values[os]` is a dict with a family, a size and a weight |
| Sample.DisabledState | src/lib/components/sample.py:248 | 'disabled' exactly when the switch is on, 'normal' exactly when it is off |
| Sample.ChangeConfOutcome | src/lib/components/sample.py:252-432 | a change never adds or removes sample items or windows |
| Sample.SamplePage.constructor | src/lib/components/sample.py:115-231 | the sample items start without a top-level window, nothing is configured, and `on_change_conf` is subscribed to CHANGE_CONF |
| Sample.SamplePage.OnOpenWindow | src/lib/components/sample.py:233-245 | a new top-level window only when none exists |
| Sample.SamplePage.CloseWindow | src/lib/components/sample.py:236-238 | a closed window no longer exists, but its key stays in the sample items |
| Sample.SamplePage.OnDisabledSample | src/lib/components/sample.py:247-250 | every widget of the disabled list gets the state the switch selects |
| Sample.SamplePage.ApplyFont | src/lib/components/sample.py:427-432 | the loop of the font branch over the sample items |
| Sample.SamplePage.ConfigureTargets | src/lib/components/sample.py:259-419 | the `configure` calls of one branch, on its targets in order |
| Sample.SamplePage.OnChangeConf | src/lib/components/sample.py:252-432 | the new state and the error are those of the change outcome, with the font read under the corrected operating-system key |
| SampleProofs.FontReach | src/lib/components/sample.py:427-432 | the font reaches both dropdown menus when an item name contains DropdownMenu, and every item whose name contains no excluded widget; nothing else |
| SampleProofs.ExcludedNeverFont | src/lib/components/sample.py:126-127 | an excluded widget, the top-level window among them, never gets a font |
| SampleProofs.DropdownsShareFont | src/lib/components/sample.py:428-430 | both dropdown menus get the same font |
| SampleProofs.DisabledReach | src/lib/components/sample.py:249-250 | the state is set on exactly the named items and nothing else |
| SampleProofs.DisabledSample | src/lib/components/sample.py:247-250 | switch on gives 'disabled' and switch off gives 'normal', on the seven disabled-list widgets and nothing else |
| SampleProofs.OpenIdempotent | src/lib/components/sample.py:236-239 | after opening, a window exists; opening twice equals opening once |
| SampleProofs.TableBranch | src/lib/components/sample.py:259-419 | a widget's branch succeeds exactly when every key it reads is present, and then sets those keys on its targets only; otherwise KeyError and no change |
| SampleProofs.ButtonReads | src/lib/components/sample.py:266-275 | the button change succeeds exactly when its seven settings are present |
| SampleProofs.UnknownItemIgnored | src/lib/components/sample.py:259-432 | an item with no branch changes nothing and raises nothing |
| SampleProofs.ToplevelAbsentIgnored | src/lib/components/sample.py:261-265 | top-level settings are dropped while no window exists, even with keys missing |
| SampleProofs.DropdownsTogether | src/lib/components/sample.py:386-396 | both dropdown menus get the same three settings |
| SampleProofs.DarwinFontAsWritten | src/lib/components/sample.py:421 | as written, macOS looks its font up under 'Darwin', which no font page has: KeyError |
| SampleProofs.DarwinFont | src/lib/components/sample.py:421 | corrected, a macOS font page with a family, size and weight is applied |
| SampleProofs.FontOsKeysAgree | src/lib/components/sample.py:421 | the corrected key and the key as written differ only for 'Darwin' and 'Drawin', and only the font page reads the key, so every other change has the same outcome under both |
| SampleProofs.AcceptedIff | src/lib/components/sample.py:259-426 | a change succeeds when the page has every key its branch reads; a top-level change without a window always succeeds; otherwise success is exactly that condition |
| Sidebar.SwitchedMode | src/lib/components/sidebar.py:63-69 | 'dark' exactly when the switch is on, 'light' exactly when it is off |
| Sidebar.SideBar.constructor | src/lib/components/sidebar.py:19-49 | no buttons and no selection; the three handlers are registered in order |
| Sidebar.SideBar.OnSwitchMode | src/lib/components/sidebar.py:63-69 | only the appearance mode changes |
| Sidebar.SideBar.OnDelAllButton | src/lib/components/sidebar.py:71-80 | the state after destroying and deleting every entry except the excluded one |
| Sidebar.SideBar.OnAddButton | src/lib/components/sidebar.py:82-112 | the state and error of the add outcome |
| Sidebar.SideBar.OnSelectButton | src/lib/components/sidebar.py:114-123 | the state and error of the select outcome, including the TclError of a destroyed previous button |
| SidebarProofs.DelAllEffect | src/lib/components/sidebar.py:77-80 | at most the excluded entry stays, unchanged; the other buttons in the table are destroyed; the button list and selection are untouched; the invariant holds |
| SidebarProofs.HeaderGrows | src/lib/components/sidebar.py:89-91 | a header button becomes one more child of the header frame |
| SidebarProofs.AddEffect | src/lib/components/sidebar.py:89-112 | the new button is stored under its name, replacing any old one; a main button goes at the table's former size and a header button at the header's child count; every earlier button, the selection, the destroyed set and the appearance are unchanged; any other frame raises ValueError; the invariant holds |
| SidebarProofs.SelectEffect | src/lib/components/sidebar.py:114-123 | when the previous button was destroyed, TclError and nothing changes; otherwise a known name becomes current and is the only highlighted button, and an unknown name raises KeyError with nothing highlighted and the selection kept; the invariant holds |
| SidebarProofs.AtMostOneHighlighted | src/lib/components/sidebar.py:120-123 | under the invariant at most one button is highlighted |
| Home.HomePage.constructor | src/lib/components/home.py:65-75 | `new_data` starts empty and `on_recieve_data` is subscribed to RECIEVE_DATA |
| Home.HomePage.LoadFile | src/lib/components/home.py:77-89 | the document is shown and published unchanged as BUILD_PAGE |
| Home.HomePage.OnRecieveData | src/lib/components/home.py:130-137 | `new_data[fm] = data`, nothing else |
| Home.HomePage.WriteSave | src/lib/components/home.py:111-128 | `new_data` is shown; when a file was chosen, the same `new_data` is written |
| Home.CollectedKeeps | src/lib/components/home.py:137 | receiving never removes a sender, and one that did not send again keeps its data |
| Home.CollectedLast | src/lib/components/home.py:137 | a sender's last data is what `new_data` holds for it |
| Home.CollectedFresh | src/lib/components/home.py:65-137 | from an empty `new_data`, replies from distinct senders are collected exactly, in order |
| Application.GetDataCallbacks | src/lib/components/base.py:51-54 | the GET_DATA callbacks of the first n page objects, in order |
| Application.SetParams | src/app.py:204-207 | file parameters override command-line ones only when the file exists; every other key keeps its command-line value |
| Application.NewComponents | src/app.py:44-57 | a fresh bus with the sidebar's, sample page's and Home page's handlers registered in that order; components in their initial state |
| Application.SubscribeApp | src/app.py:59-60 | the application's SHOW_PAGE handler runs after the sidebar's, and BUILD_PAGE has only the application's |
| Application.AppTableWired | src/app.py:44-60 | the listener table `App.__init__` leaves has every event wired as the components register them, and no GET_DATA listener |
| Application.App.constructor | src/app.py:33-67 | the Home button is in the header and highlighted; Home is current and shown across two columns; no setting page objects; the invariant holds |
| Application.App.Init | src/app.py:59-67 | the subscriptions and the two start-up publications lead to that state |
| Application.App.Start | src/app.py:62-67 | ADD_BUTTON then SHOW_PAGE reach the sidebar and the application in subscription order |
| Application.App.OnShowPage | src/app.py:69-87 | the view after `on_show_page` is the show outcome, whose TclError for a destroyed current page is read from the page object itself; the page objects are unchanged |
| Application.App.ClickButton | src/lib/components/sidebar.py:107-110 | a click publishes SHOW_PAGE and the sidebar selects first; its KeyError stops the application's handler and leaves the view unchanged; otherwise the view is the show outcome |
| Application.App.AddPageButton | src/app.py:110-114 | the sidebar state after the ADD_BUTTON for a MAIN page; it always succeeds |
| Application.App.NewPage | src/app.py:115-120 | the new page object holds the page name and the fields built from the values, is subscribed to GET_DATA, and yields the data it publishes or the exception |
| Application.App.ConstructPage | src/app.py:115-120 | the page object joins the list of page objects with its sources; the view is unchanged |
| Application.App.PublishConf | src/lib/components/setting.py:93-97 | the CHANGE_CONF at the end of a page's construction changes the sample page as the change outcome says |
| Application.App.BuildOne | src/app.py:108-120 | one iteration of the build loop equals `BuildStep` on the pages, sidebar and sample page |
| Application.App.BuildPage | src/app.py:115-120 | the iteration after its button exists equals `PageStep` |
| Application.BuildStep | src/app.py:108-120 | the button is added; then, if the page builds, it is stored and CHANGE_CONF reaches the sample page; otherwise the exception |
| Application.PageStep | src/app.py:115-120 | a page whose construction raises is not stored |
| Application.RunFrom | src/app.py:108-120 | the loop over the document from the i-th key, stopping at the first exception |
| Application.App.BuildNext | src/app.py:108-120 | the iteration for the i-th key as a step of `RunFrom` |
| Application.App.DeletePages | src/app.py:102-106 | every page except Home leaves the pages table, and exactly the setting page objects it held are destroyed; the page objects stay in the list and the invariant holds |
| Application.App.DeletePage | src/app.py:104-106 | one key leaves the pages table, and its setting page object, if it is one, is destroyed |
| Application.App.DestroyInstance | src/app.py:105 | page object `j` is destroyed, every other page object is unchanged, and the invariant holds |
| Application.RemovedStep | src/app.py:102-106 | handling one more key of the loop removes it, unless it is Home, and adds its setting page object to those destroyed |
| Application.App.BuildAll | src/app.py:108-120 | the loop leaves the pages, sidebar and sample page as `RunFrom` says and keeps every page object ever built |
| Application.App.OnBuildPage | src/app.py:89-120 | DEL_ALL_BUTTON, then deleting and destroying pages, then the build loop, as `RunFrom` from the pruned state; the view is unchanged |
| ApplicationProofs.ShowEffect | src/app.py:69-87 | a destroyed current page raises TclError and nothing changes; otherwise KeyError exactly for a name without a page, and the old page is off the grid either way; a known name becomes current, across two columns exactly for Home; the pages table never changes |
| ApplicationProofs.BuildStepSucceeds | src/app.py:110-120 | a page that builds is stored under its key with a button under the same key, and nothing else is added |
| ApplicationProofs.RunFromSucceeds | src/app.py:108-120 | over a document whose pages all build, nothing raises and one page object is built per key |
| ApplicationProofs.RunFromPages | src/app.py:108-120 | the loop adds each key to the pages table, as a setting page, and keeps every other entry |
| ApplicationProofs.RunFromButtons | src/app.py:108-114 | the loop adds each key to the sidebar's table |
| ApplicationProofs.RunFromKeys | src/app.py:102-120 | on any outcome the loop only adds keys of the document to the pages table and never removes one |
| ApplicationProofs.RebuildSucceeds | src/app.py:98-120 | a rebuild from a document whose pages all build leaves exactly Home and the document's keys in the pages table and in the sidebar; Home keeps its page unless the document has a page of that name; every key of the document is a setting page |
| Session.Dispatch | src/lib/components/setting.py:292-299 | GET_DATA reaching one page object stores its data in `new_data` under its page name, or returns its exception with `new_data` unchanged |
| Session.SaveFile | src/lib/components/home.py:107-128 | GET_DATA is published before anything is shown, so `new_data` collects the reply of every page object in build order, up to the first exception; a destroyed page object with an entry widget raises TclError; on an exception nothing is shown or written; otherwise the `new_data` that holds every reply is shown and written to a chosen file |
| Session.RepliesNext | src/lib/components/base.py:37-38 | one more page object answers |
| Session.RepliesStop | src/lib/components/base.py:37-38 | after a page object raises, the later ones are never asked |
| Session.CollectedNext | src/lib/components/home.py:137 | one more reply is one more `new_data[fm] = data` |
| Session.RepliesKeep | src/lib/components/setting.py:292-299 | page objects built from pages that round-trip answer with exactly those pages, in order, and none raises |
| Session.ReadsBack | src/lib/components/setting.py:249-278 | a page built from settings that keep reads them back, and a destroyed one does too when it has no entry widget |
| Session.RepliesRaise | src/lib/components/base.py:37-38 | when every answer is data or one exception, and some answer is that exception, the save stops with it |
| Session.RepliesClean | src/lib/components/base.py:37-38 | answers that are all data raise nothing |
| Session.StaleSenderRaises | src/lib/components/setting.py:255-278 | a page object destroyed by an earlier load is still asked by GET_DATA; when its page has an entry widget the save stops with TclError |
| Session.NothingBuiltYet | src/app.py:33-67 | with no page object built yet, none is destroyed and the pages table holds no setting page |
| Session.Load | src/lib/components/home.py:77-89 | loading a document whose pages all build rebuilds the pages and buttons for exactly its keys beside Home, each a setting page; the new page objects hold the document's pages, and exactly the setting page objects the pages table held before are destroyed |
| Session.LoadThenSave | src/lib/components/home.py:77-128 | a fresh application that loads such a document with distinct page names and then saves shows and writes that same document, page by page in the same order |
| Session.SaveLoaded | src/lib/components/home.py:107-128 | saving right after the first load shows the loaded document, and writes it when a file is chosen |
| Session.ReloadThenSave | src/app.py:102-106 | loading a document while a setting page with an entry widget is in the pages table destroys that page, and the next save raises TclError with nothing shown or written |
| Session.SaveStale | src/lib/components/home.py:107-128 | a save while a destroyed page object with an entry widget is subscribed raises TclError and shows and writes nothing |

## Left out

- Widgets, layout and styling are left out: labels, entry widgets, frames, textboxes, `grid` and `grid_forget` positions other than the column span, colours, and the window title and geometry. The sidebar's row index and the button colours are kept.
- `src/lib/pages/base.py` and `src/lib/common/types.py` are not part of this model beyond the page name and the event names.
- I/O is left out. The loaded document, the answer of the save dialog (`fileChosen`) and the existence of the parameter file are parameters. JSON and YAML parsing and dumping, `argparse`, logging, the Tk main loop and `on_open_file_dialog` are not modelled.
- `platform.system()` is a parameter, `App.system`.
- The Tk variable machinery is reduced to string cells with their names: `create_str_var`, `unset_global_var` and `trace_add`. A cell created from an int holds the int's decimal text.
- `NumberText`: the Tk text of a list or dict given as a number setting is not modelled; such a value yields an `Unmodelled` error.
- `Text.ParseInt`: `int(s)` is modelled on an optional sign followed by ASCII decimal digits. Surrounding whitespace, underscores and non-ASCII digits are not accepted.
- The bus runs callbacks synchronously. `Emit` returns the calls in order, and each caller runs them one by one. Re-entrant publication is modelled only where the source does it: a setting page's CHANGE_CONF during `on_build_page`, and RECIEVE_DATA during GET_DATA.
- CTkFont objects are records of family, size and weight.
- A destroyed widget is a removed table entry plus a flag. A destroyed setting page object keeps its GET_DATA subscription, because the source never unsubscribes it.
- Session.Load: proved only for a document whose pages all build. Earlier page objects stay subscribed after a load; `Session.StaleSenderRaises` and `Session.ReloadThenSave` state their effect.
- Tk errors other than a destroyed widget are not modelled: `configure` with an option value Tk rejects (an unknown colour name, a malformed font) raises TclError in the source but succeeds in the model.
- Document values are modelled as `int`, `str`, a list of `str`, or a dict of `str` to `int` or `str`. JSON floats, booleans, null, nested lists and non-string list items are not modelled; `get_data` and the sample page would treat them through Tk conversions that are not part of this model.
- Sample.SamplePage.OnChangeConf: uses the corrected font key `FontOsKey`. On a 'Darwin' host a font page raises KeyError at src/lib/components/sample.py:421-423 as written, and the model applies it; on every other host the two agree (`SampleProofs.FontOsKeysAgree`).
- Application.App.PublishConf: a font page's CHANGE_CONF uses the corrected font key, so on a 'Darwin' host it succeeds where the source raises KeyError.
- Application.PageStep: uses the corrected font key, so on a 'Darwin' host a font page is stored where the source's KeyError would stop the construction.
- Application.BuildStep: inherits the corrected font key from `PageStep`; on a 'Darwin' host a font page does not stop the build loop.
- Application.RunFrom: inherits the corrected font key; on a 'Darwin' host the source's `on_build_page` stops at a font page and leaves the later keys unbuilt, while the model goes on.
- Application.App.OnBuildPage: as `RunFrom`, with the corrected font key.
- ApplicationProofs.BuildsFrom: states acceptance under the corrected font key; on a 'Darwin' host the source accepts no font page.
- ApplicationProofs.RebuildSucceeds: holds for the corrected font key; on a 'Darwin' host with a font page the source's rebuild stops with KeyError.
- Session.Load: on a 'Darwin' host with a font page the source raises KeyError during the build; the model uses the corrected font key.
- Session.LoadThenSave: on a 'Darwin' host with a font page the source never reaches the save; the model uses the corrected font key.
- Session.ReloadThenSave: uses the corrected font key during the load, as `Session.Load`.
- Session.LoadThenSave: requires the Home button in the sidebar and an empty `new_data`, which is the state `App.__init__` leaves.

## Findings

| source | as written | input that shows it | evidently intended | confidence | as-written member | corrected member |
|---|---|---|---|---|---|---|
| src/lib/components/sample.py:421 | `platform.system()` is compared with 'Drawin', so macOS's 'Darwin' is used unchanged as the font key | `platform.system() == 'Darwin'` with a font page holding 'macOS', 'Windows' and 'Linux': `values['Darwin']` raises KeyError | 'Darwin' maps to 'macOS' | not executed | Sample.FontOsKeyAsWritten, SampleProofs.DarwinFontAsWritten | Sample.FontOsKey, SampleProofs.DarwinFont |
