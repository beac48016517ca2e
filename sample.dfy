/** The sample page: one sample widget per widget kind, reconfigured whenever
    a setting page publishes CHANGE_CONF. A widget is an abstract target with
    the attributes configured on it so far; the toolkit's drawing is not
    modelled. */
module Sample {
  import opened Types
  import opened Dicts
  import opened Text
  import opened Base

  // Widget identifiers (the values of the widget enumeration).
  const CTK := "CTk"
  const TOPLEVEL := "CTkToplevel"
  const FRAME := "CTkFrame"
  const BUTTON := "CTkButton"
  const LABEL := "CTkLabel"
  const ENTRY := "CTkEntry"
  const CHECKBOX := "CTkCheckBox"
  const SWITCH := "CTkSwitch"
  const RADIOBUTTON := "CTkRadioButton"
  const PROGRESSBAR := "CTkProgressBar"
  const SLIDER := "CTkSlider"
  const OPTIONMENU := "CTkOptionMenu"
  const COMBOBOX := "CTkComboBox"
  const SCROLLBAR := "CTkScrollbar"
  const SEGMENTEDBUTTON := "CTkSegmentedButton"
  const TEXTBOX := "CTkTextbox"
  const SCROLLABLEFRAME := "CTkScrollableFrame"
  const FONT := "CTkFont"
  const DROPDOWNMENU := "DropdownMenu"

  /** Items whose name contains one of these never receive a font. */
  const FONT_EXCLUDED := [TOPLEVEL, PROGRESSBAR, SLIDER, FRAME, SCROLLBAR, SCROLLABLEFRAME]

  /** The widgets the disabled switch toggles, in order. */
  const DISABLED := [BUTTON, CHECKBOX, SWITCH, RADIOBUTTON, OPTIONMENU, COMBOBOX, SEGMENTEDBUTTON]

  /** The keys of `sample_items` after construction, in insertion order. */
  const INITIAL_ITEMS := [CTK, LABEL, ENTRY, BUTTON, SEGMENTEDBUTTON, CHECKBOX, RADIOBUTTON, SWITCH,
                          PROGRESSBAR, SLIDER, OPTIONMENU, COMBOBOX, TEXTBOX, DROPDOWNMENU,
                          SCROLLABLEFRAME, SCROLLBAR, FRAME]

  // Attribute names set outside the setting table.
  const STATE_ATTR := "state"
  const FONT_ATTR := "font"

  /** A configurable widget: the item stored under a name, or the dropdown
      menu of the option menu or of the combo box. */
  datatype Target = Item(name: string) | Dropdown(menu: string)

  /** A configured attribute: a theme value, a widget state, or a font. */
  datatype Attr =
    | Setting(v: Value)
    | State(s: string)
    | FontAttr(family: Scalar, size: Scalar, weight: Scalar)

  type Config = map<Target, map<string, Attr>>

  /** The attributes configured on `t` so far. */
  function Attrs(cfg: Config, t: Target): map<string, Attr>
  {
    if t in cfg then cfg[t] else map[]
  }

  /** `t.configure(**attrs)`. */
  function Configured(cfg: Config, t: Target, attrs: map<string, Attr>): (r: Config)
    ensures Attrs(r, t) == Attrs(cfg, t) + attrs
    ensures forall u | u != t :: Attrs(r, u) == Attrs(cfg, u)
  {
    cfg[t := Attrs(cfg, t) + attrs]
  }

  /** The setting keys each widget's branch of `on_change_conf` reads; the
      attribute configured from a key has the key's own name. None for an
      item without a branch, and for the font, which has its own branch. */
  function WidgetKeys(itemName: string): Option<seq<string>>
  {
    if itemName == CTK || itemName == TOPLEVEL then Some(["fg_color"])
    else if itemName == BUTTON then
      Some(["border_color", "border_width", "corner_radius", "fg_color", "hover_color", "text_color",
            "text_color_disabled"])
    else if itemName == RADIOBUTTON then
      Some(["border_color", "border_width_checked", "border_width_unchecked", "corner_radius", "fg_color",
            "hover_color", "text_color", "text_color_disabled"])
    else if itemName == SEGMENTEDBUTTON then
      Some(["border_width", "corner_radius", "fg_color", "selected_color", "selected_hover_color",
            "text_color", "text_color_disabled", "unselected_color", "unselected_hover_color"])
    else if itemName == ENTRY then
      Some(["border_color", "border_width", "corner_radius", "fg_color", "placeholder_text_color", "text_color"])
    else if itemName == LABEL then
      Some(["corner_radius", "fg_color", "text_color"])
    else if itemName == CHECKBOX then
      Some(["border_color", "border_width", "checkmark_color", "corner_radius", "fg_color", "hover_color",
            "text_color", "text_color_disabled"])
    else if itemName == SWITCH then
      Some(["border_width", "button_color", "button_hover_color", "button_length", "corner_radius", "fg_color",
            "progress_color", "text_color", "text_color_disabled"])
    else if itemName == PROGRESSBAR then
      Some(["border_color", "border_width", "corner_radius", "fg_color", "progress_color"])
    else if itemName == SLIDER then
      Some(["border_width", "button_color", "button_corner_radius", "button_hover_color", "button_length",
            "corner_radius", "fg_color", "progress_color"])
    else if itemName == OPTIONMENU then
      Some(["button_color", "button_hover_color", "corner_radius", "fg_color", "text_color", "text_color_disabled"])
    else if itemName == COMBOBOX then
      Some(["border_color", "border_width", "button_color", "button_hover_color", "corner_radius", "fg_color",
            "text_color", "text_color_disabled"])
    else if itemName == TEXTBOX then
      Some(["border_color", "border_width", "corner_radius", "fg_color", "scrollbar_button_color",
            "scrollbar_button_hover_color", "text_color"])
    else if itemName == DROPDOWNMENU then
      Some(["fg_color", "hover_color", "text_color"])
    else if itemName == FRAME then
      Some(["border_color", "border_width", "corner_radius", "fg_color"])
    else if itemName == SCROLLBAR then
      Some(["border_spacing", "button_color", "button_hover_color", "corner_radius", "fg_color"])
    else if itemName == SCROLLABLEFRAME then
      Some(["label_fg_color"])
    else None
  }

  /** The widgets a branch configures: both dropdown menus for the dropdown
      branch, the item itself otherwise. */
  function TargetsOf(itemName: string): seq<Target>
  {
    if itemName == DROPDOWNMENU then [Dropdown(OPTIONMENU), Dropdown(COMBOBOX)] else [Item(itemName)]
  }

  /** The keyword arguments `values[key]` for every key, evaluated in order:
      KeyError at the first missing key. */
  function Lookup(values: PageData, keys: seq<string>): (r: Result<map<string, Attr>, Error>)
    ensures r.Success? <==> forall k | k in keys :: k in Keys(values)
    ensures r.Failure? ==> r.error == KeyError
    ensures r.Success? ==> r.value.Keys == set k | k in keys
    ensures r.Success? ==> forall k | k in keys :: Get(values, k).Some? && r.value[k] == Setting(Get(values, k).value)
  {
    if keys == [] then Success(map[])
    else
      match Lookup(values, keys[..|keys| - 1])
      case Failure(e) => Failure(e)
      case Success(m) =>
        var k := keys[|keys| - 1];
        match Get(values, k)
        case None => Failure(KeyError)
        case Some(v) => Success(m[k := Setting(v)])
  }

  /** Every target configured with the same attributes, in order. */
  function ConfiguredAll(cfg: Config, ts: seq<Target>, attrs: map<string, Attr>): (r: Config)
    ensures forall u :: Attrs(r, u) == if u in ts then Attrs(cfg, u) + attrs else Attrs(cfg, u)
  {
    if ts == [] then cfg
    else
      var r := Configured(ConfiguredAll(cfg, ts[..|ts| - 1], attrs), ts[|ts| - 1], attrs);
      assert forall u | u in ts :: u in ts[..|ts| - 1] || u == ts[|ts| - 1];
      r
  }

  /** `platform.system()` mapped to the key of a font setting, as written:
      the comparison is with 'Drawin'. */
  function FontOsKeyAsWritten(system: string): string
  {
    if system != "Drawin" then system else "macOS"
  }

  /** `platform.system()` mapped to the key of a font setting: macOS reports
      'Darwin', whose font setting is stored under 'macOS'. */
  function FontOsKey(system: string): (k: string)
    ensures system == "Darwin" ==> k == "macOS"
    ensures system != "Darwin" ==> k == system
  {
    if system != "Darwin" then system else "macOS"
  }

  /** The font built from `values[osKey]`: KeyError for a missing key,
      TypeError when the value is not a dict. */
  function FontOf(values: PageData, osKey: string): (r: Result<Attr, Error>)
    ensures r.Success? <==> exists e :: Get(values, osKey) == Some(VDict(e))
                                     && Get(e, "family").Some? && Get(e, "size").Some? && Get(e, "weight").Some?
    ensures Get(values, osKey).None? ==> r == Failure(KeyError)
    ensures r.Success? ==> r.value.FontAttr?
  {
    var got: Option<Value> := Get(values, osKey);
    match got
    case None => Failure(KeyError)
    case Some(VDict(e)) =>
      (match (Get(e, "family"), Get(e, "size"), Get(e, "weight"))
       case (Some(f), Some(s), Some(w)) => Success(FontAttr(f, s, w))
       case _ => Failure(KeyError))
    case Some(_) => Failure(TypeError)
  }

  /** `all(k not in key for k in FONT_EXCLUDED)`. */
  predicate FontAllowed(name: string)
  {
    forall k | k in FONT_EXCLUDED :: !Contains(name, k)
  }

  /** The loop of the font branch: both dropdowns for an item whose name
      contains DropdownMenu, the item itself when its name contains no
      excluded identifier. */
  function FontApplied(cfg: Config, items: seq<string>, font: Attr): Config
  {
    if items == [] then cfg
    else
      var c := FontApplied(cfg, items[..|items| - 1], font);
      var name := items[|items| - 1];
      if Contains(name, DROPDOWNMENU) then
        Configured(Configured(c, Dropdown(OPTIONMENU), map[FONT_ATTR := font]), Dropdown(COMBOBOX), map[FONT_ATTR := font])
      else if FontAllowed(name) then Configured(c, Item(name), map[FONT_ATTR := font])
      else c
  }

  /** The targets the font branch reaches. */
  predicate IsFontTarget(items: seq<string>, t: Target)
  {
    match t
    case Dropdown(m) => (m == OPTIONMENU || m == COMBOBOX) && exists n | n in items :: Contains(n, DROPDOWNMENU)
    case Item(n) => n in items && !Contains(n, DROPDOWNMENU) && FontAllowed(n)
  }

  /** Each of `names` gets `state` configured, in order. */
  function DisabledApplied(cfg: Config, names: seq<string>, state: string): Config
  {
    if names == [] then cfg
    else Configured(DisabledApplied(cfg, names[..|names| - 1], state), Item(names[|names| - 1]), map[STATE_ATTR := State(state)])
  }

  /** The state the disabled switch selects. */
  function DisabledState(switchOn: bool): (s: string)
    ensures s == "disabled" <==> switchOn
    ensures s == "normal" <==> !switchOn
  {
    if !switchOn then "normal" else "disabled"
  }

  /** A snapshot of the sample page: the keys of `sample_items` in insertion
      order, whether the top-level window under its key still exists, how
      many top-level windows were opened, and the configured attributes. */
  datatype SampleState = SampleState(items: seq<string>, toplevelAlive: bool, windows: nat, config: Config)

  predicate ToplevelExists(s: SampleState)
  {
    TOPLEVEL in s.items && s.toplevelAlive
  }

  /** The state after `on_open_window`: a new window only when none exists. */
  function Opened(s: SampleState): SampleState
  {
    if ToplevelExists(s) then s
    else SampleState(if TOPLEVEL in s.items then s.items else s.items + [TOPLEVEL], true, s.windows + 1,
                     s.config[Item(TOPLEVEL) := map[]])
  }

  /** The outcome of `on_change_conf(item_name, values)` with the font read
      under `osKey`. */
  function ChangeConfOutcome(s: SampleState, itemName: string, values: PageData, osKey: string): (r: Result<SampleState, Error>)
    ensures r.Success? ==> r.value.items == s.items && r.value.toplevelAlive == s.toplevelAlive && r.value.windows == s.windows
  {
    if itemName == FONT then
      match FontOf(values, osKey)
      case Failure(e) => Failure(e)
      case Success(f) => Success(s.(config := FontApplied(s.config, s.items, f)))
    else if itemName == TOPLEVEL && !ToplevelExists(s) then Success(s)
    else
      match WidgetKeys(itemName)
      case None => Success(s)
      case Some(keys) =>
        match Lookup(values, keys)
        case Failure(e) => Failure(e)
        case Success(attrs) => Success(s.(config := ConfiguredAll(s.config, TargetsOf(itemName), attrs)))
  }

  class SamplePage {
    var items: seq<string>
    var toplevelAlive: bool
    var windows: nat
    var config: Config

    function Snapshot(): SampleState
      reads this
    {
      SampleState(items, toplevelAlive, windows, config)
    }

    /** `SamplePage.__init__`: every sample item but the top-level window is
        stored, and `on_change_conf` is registered for CHANGE_CONF. */
    constructor (bus: EventBus<Callback>)
      modifies bus
      ensures Snapshot() == SampleState(INITIAL_ITEMS, false, 0, map[])
      ensures bus.listeners == Subscribed(old(bus.listeners), CHANGE_CONF, SampleChangeConf)
    {
      items := INITIAL_ITEMS;
      toplevelAlive := false;
      windows := 0;
      config := map[];
      new;
      Register(bus, Some([(CHANGE_CONF, SampleChangeConf)]));
    }

    /** `on_open_window`: opens a top-level window unless one exists. */
    method OnOpenWindow()
      modifies this
      ensures Snapshot() == Opened(old(Snapshot()))
    {
      if !(TOPLEVEL in items && toplevelAlive) {
        if TOPLEVEL !in items {
          items := items + [TOPLEVEL];
        }
        toplevelAlive := true;
        windows := windows + 1;
        config := config[Item(TOPLEVEL) := map[]];
      }
    }

    /** The user closes the top-level window: `winfo_exists()` is false from
        then on, while its key stays in `sample_items`. */
    method CloseWindow()
      modifies this
      ensures Snapshot() == old(Snapshot()).(toplevelAlive := false)
    {
      toplevelAlive := false;
    }

    /** `on_disabled_sample`: every widget of the disabled list gets the
        state the switch selects. */
    method OnDisabledSample(switchOn: bool)
      modifies this
      ensures Snapshot() == old(Snapshot()).(config := DisabledApplied(old(config), DISABLED, DisabledState(switchOn)))
    {
      var state := if !switchOn then "normal" else "disabled";
      for i := 0 to |DISABLED|
        invariant config == DisabledApplied(old(config), DISABLED[..i], state)
        invariant items == old(items) && toplevelAlive == old(toplevelAlive) && windows == old(windows)
      {
        assert DISABLED[..i + 1][..i] == DISABLED[..i];
        config := Configured(config, Item(DISABLED[i]), map[STATE_ATTR := State(state)]);
      }
      assert DISABLED[..|DISABLED|] == DISABLED;
    }

    /** The loop of the font branch of `on_change_conf`. */
    method ApplyFont(font: Attr)
      modifies this
      ensures Snapshot() == old(Snapshot()).(config := FontApplied(old(config), items, font))
    {
      for i := 0 to |items|
        invariant items == old(items) && toplevelAlive == old(toplevelAlive) && windows == old(windows)
        invariant config == FontApplied(old(config), items[..i], font)
      {
        assert items[..i + 1][..i] == items[..i];
        var name := items[i];
        if Contains(name, DROPDOWNMENU) {
          config := Configured(config, Dropdown(OPTIONMENU), map[FONT_ATTR := font]);
          config := Configured(config, Dropdown(COMBOBOX), map[FONT_ATTR := font]);
        } else if FontAllowed(name) {
          config := Configured(config, Item(name), map[FONT_ATTR := font]);
        }
      }
      assert items[..|items|] == items;
    }

    /** The `configure` calls of one branch of `on_change_conf`. */
    method ConfigureTargets(targets: seq<Target>, attrs: map<string, Attr>)
      modifies this
      ensures Snapshot() == old(Snapshot()).(config := ConfiguredAll(old(config), targets, attrs))
    {
      for i := 0 to |targets|
        invariant config == ConfiguredAll(old(config), targets[..i], attrs)
        invariant items == old(items) && toplevelAlive == old(toplevelAlive) && windows == old(windows)
      {
        assert targets[..i + 1][..i] == targets[..i];
        config := Configured(config, targets[i], attrs);
      }
      assert targets[..|targets|] == targets;
    }

    /** `on_change_conf`: the branch for `itemName` configures its widgets from
        `values`; a missing key raises before anything is configured. The font
        is read under the key `FontOsKey(system)`. */
    method OnChangeConf(itemName: string, values: PageData, system: string) returns (err: Option<Error>)
      modifies this
      ensures var r := ChangeConfOutcome(old(Snapshot()), itemName, values, FontOsKey(system));
        && (r.Success? ==> err.None? && Snapshot() == r.value)
        && (r.Failure? ==> err == Some(r.error) && Snapshot() == old(Snapshot()))
    {
      if itemName == FONT {
        var osKey := if system != "Darwin" then system else "macOS";
        var font := FontOf(values, osKey);
        if font.Failure? {
          return Some(font.error);
        }
        ApplyFont(font.value);
        return None;
      }
      if itemName == TOPLEVEL && !(TOPLEVEL in items && toplevelAlive) {
        return None;
      }
      var keys := WidgetKeys(itemName);
      if keys.None? {
        return None;
      }
      var attrs := Lookup(values, keys.value);
      if attrs.Failure? {
        return Some(attrs.error);
      }
      ConfigureTargets(TargetsOf(itemName), attrs.value);
      err := None;
    }
  }
}
