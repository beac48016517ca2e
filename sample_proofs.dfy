/** What the sample page promises: which widgets a change reaches, what the
    disabled switch touches, that opening the top-level window is idempotent,
    and how the font branch looks up the operating system. */
module SampleProofs {
  import opened Types
  import opened Dicts
  import opened Text
  import opened Setting
  import opened Sample

  /** The font branch gives the font to exactly the targets `IsFontTarget`
      describes and leaves every other target as it was. */
  lemma {:induction false} FontReach(cfg: Config, items: seq<string>, font: Attr, t: Target)
    ensures Attrs(FontApplied(cfg, items, font), t)
         == if IsFontTarget(items, t) then Attrs(cfg, t) + map[FONT_ATTR := font] else Attrs(cfg, t)
  {
    if items != [] {
      var init := items[..|items| - 1];
      var name := items[|items| - 1];
      FontReach(cfg, init, font, t);
      assert forall n :: n in items <==> n in init || n == name;
      var before := Attrs(cfg, t) + map[FONT_ATTR := font];
      assert before + map[FONT_ATTR := font] == before;
      if t.Dropdown? && Contains(name, DROPDOWNMENU) {
        assert name in items;
      }
    }
  }

  /** No item named after an excluded widget ever receives a font; in
      particular the top-level window does not. */
  lemma ExcludedNeverFont(cfg: Config, items: seq<string>, font: Attr, k: string)
    requires k in FONT_EXCLUDED
    ensures Attrs(FontApplied(cfg, items, font), Item(k)) == Attrs(cfg, Item(k))
  {
    ContainsSelf(k);
    FontReach(cfg, items, font, Item(k));
  }

  /** Once an item's name contains DropdownMenu, both dropdown menus get the
      same font. */
  lemma DropdownsShareFont(cfg: Config, items: seq<string>, font: Attr, n: string)
    requires n in items && Contains(n, DROPDOWNMENU)
    ensures FONT_ATTR in Attrs(FontApplied(cfg, items, font), Dropdown(OPTIONMENU))
    ensures FONT_ATTR in Attrs(FontApplied(cfg, items, font), Dropdown(COMBOBOX))
    ensures Attrs(FontApplied(cfg, items, font), Dropdown(OPTIONMENU))[FONT_ATTR]
         == Attrs(FontApplied(cfg, items, font), Dropdown(COMBOBOX))[FONT_ATTR] == font
  {
    FontReach(cfg, items, font, Dropdown(OPTIONMENU));
    FontReach(cfg, items, font, Dropdown(COMBOBOX));
  }

  /** The state configured on exactly the named items, nothing else touched. */
  lemma {:induction false} DisabledReach(cfg: Config, names: seq<string>, state: string, t: Target)
    ensures Attrs(DisabledApplied(cfg, names, state), t)
         == if t.Item? && t.name in names then Attrs(cfg, t) + map[STATE_ATTR := State(state)] else Attrs(cfg, t)
  {
    if names != [] {
      var init := names[..|names| - 1];
      DisabledReach(cfg, init, state, t);
      assert forall n :: n in names <==> n in init || n == names[|names| - 1];
      var before := Attrs(cfg, t) + map[STATE_ATTR := State(state)];
      assert before + map[STATE_ATTR := State(state)] == before;
    }
  }

  /** `on_disabled_sample` sets 'disabled' with the switch on and 'normal'
      with it off, on the seven widgets of the disabled list and on nothing
      else. */
  lemma DisabledSample(cfg: Config, switchOn: bool, t: Target)
    ensures var after := Attrs(DisabledApplied(cfg, DISABLED, DisabledState(switchOn)), t);
      && (t.Item? && t.name in DISABLED ==>
            after == Attrs(cfg, t)[STATE_ATTR := State(if switchOn then "disabled" else "normal")])
      && (!(t.Item? && t.name in DISABLED) ==> after == Attrs(cfg, t))
  {
    DisabledReach(cfg, DISABLED, DisabledState(switchOn), t);
    var st := State(DisabledState(switchOn));
    assert Attrs(cfg, t) + map[STATE_ATTR := st] == Attrs(cfg, t)[STATE_ATTR := st];
  }

  /** Opening the top-level window twice is the same as opening it once: a
      window exists afterwards and at most one more window was created. */
  lemma OpenIdempotent(s: SampleState)
    ensures ToplevelExists(Opened(s))
    ensures Opened(Opened(s)) == Opened(s)
    ensures Opened(s).windows == if ToplevelExists(s) then s.windows else s.windows + 1
    ensures TOPLEVEL in s.items ==> Opened(s).items == s.items
  {
  }

  /** A widget with a row in the table: the change succeeds exactly when
      every key it reads is present, then sets those keys on its targets and
      leaves every other target alone; otherwise KeyError and no change. */
  lemma TableBranch(s: SampleState, itemName: string, values: PageData, osKey: string, keys: seq<string>)
    requires itemName != FONT && WidgetKeys(itemName) == Some(keys)
    requires itemName == TOPLEVEL ==> ToplevelExists(s)
    ensures var r := ChangeConfOutcome(s, itemName, values, osKey);
      && (r.Success? <==> forall k | k in keys :: k in Keys(values))
      && (r.Failure? ==> r.error == KeyError)
      && (r.Success? ==> forall u, k | u in TargetsOf(itemName) && k in keys ::
            k in Attrs(r.value.config, u) && Attrs(r.value.config, u)[k] == Setting(Get(values, k).value))
      && (r.Success? ==> forall u | u !in TargetsOf(itemName) :: Attrs(r.value.config, u) == Attrs(s.config, u))
  {
  }

  /** The button reads exactly these seven settings. */
  lemma ButtonReads(s: SampleState, values: PageData, osKey: string)
    ensures ChangeConfOutcome(s, BUTTON, values, osKey).Success?
        <==> forall k | k in ["border_color", "border_width", "corner_radius", "fg_color", "hover_color",
                              "text_color", "text_color_disabled"] :: k in Keys(values)
  {
    TableBranch(s, BUTTON, values, osKey, WidgetKeys(BUTTON).value);
  }

  /** An item name without a branch changes nothing and raises nothing. */
  lemma UnknownItemIgnored(s: SampleState, itemName: string, values: PageData, osKey: string)
    requires itemName != FONT && WidgetKeys(itemName).None?
    ensures ChangeConfOutcome(s, itemName, values, osKey) == Success(s)
  {
  }

  /** Settings for the top-level window are dropped while no window exists,
      even when keys are missing. */
  lemma ToplevelAbsentIgnored(s: SampleState, values: PageData, osKey: string)
    requires !ToplevelExists(s)
    ensures ChangeConfOutcome(s, TOPLEVEL, values, osKey) == Success(s)
  {
  }

  /** The dropdown settings are applied identically to both dropdown menus. */
  lemma DropdownsTogether(s: SampleState, values: PageData, osKey: string)
    requires ChangeConfOutcome(s, DROPDOWNMENU, values, osKey).Success?
    ensures var c := ChangeConfOutcome(s, DROPDOWNMENU, values, osKey).value.config;
      forall k | k in ["fg_color", "hover_color", "text_color"] ::
        && k in Attrs(c, Dropdown(OPTIONMENU)) && k in Attrs(c, Dropdown(COMBOBOX))
        && Attrs(c, Dropdown(OPTIONMENU))[k] == Attrs(c, Dropdown(COMBOBOX))[k]
  {
    TableBranch(s, DROPDOWNMENU, values, osKey, WidgetKeys(DROPDOWNMENU).value);
  }

  /** As written, a macOS host looks its font up under 'Darwin', which is not
      a font key: on a font page the lookup always raises KeyError. */
  lemma DarwinFontAsWritten(s: SampleState, values: PageData)
    requires forall i | 0 <= i < |values| :: IsFontKey(values[i].0)
    ensures !IsFontKey(FontOsKeyAsWritten("Darwin"))
    ensures ChangeConfOutcome(s, FONT, values, FontOsKeyAsWritten("Darwin")) == Failure(KeyError)
  {
    assert "Darwin" !in Keys(values);
  }

  /** With 'Darwin' mapped to 'macOS', every system that names a font key is
      looked up under one, and a macOS font page with a family, size and
      weight is applied. */
  lemma DarwinFont(s: SampleState, values: PageData, e: seq<(string, Scalar)>)
    requires Get(values, "macOS") == Some(VDict(e))
    requires Get(e, "family").Some? && Get(e, "size").Some? && Get(e, "weight").Some?
    ensures IsFontKey(FontOsKey("Darwin")) && IsFontKey(FontOsKey("Windows")) && IsFontKey(FontOsKey("Linux"))
    ensures ChangeConfOutcome(s, FONT, values, FontOsKey("Darwin")).Success?
  {
    assert "Windows"[0] == 'W' && "Linux"[0] == 'L' && "Darwin"[0] == 'D';
    assert ChangeConfOutcome(s, FONT, values, FontOsKey("Darwin")).Success? by {
      assert FontOsKey("Darwin") == "macOS";
      assert FontOf(values, "macOS").Success?;
    }
  }

  /** The corrected key and the key as written agree on every system name
      except 'Darwin' and 'Drawin', and the key is read only on the font
      page: every other change has the same outcome under either key. */
  lemma FontOsKeysAgree(s: SampleState, itemName: string, values: PageData, system: string)
    ensures FontOsKey(system) == FontOsKeyAsWritten(system) <==> system != "Darwin" && system != "Drawin"
    ensures itemName != FONT ==>
      ChangeConfOutcome(s, itemName, values, FontOsKey(system))
        == ChangeConfOutcome(s, itemName, values, FontOsKeyAsWritten(system))
  {
    if system == "Drawin" {
      assert FontOsKey(system)[0] == 'D';
    }
  }

  /** The settings `on_change_conf` takes for `itemName` whatever the state of
      the sample page: for the font page a family, size and weight under
      `osKey`; for a widget with a row in the table every key it reads. */
  predicate Accepted(itemName: string, values: PageData, osKey: string)
  {
    if itemName == FONT then FontOf(values, osKey).Success?
    else WidgetKeys(itemName).Some? ==> Lookup(values, WidgetKeys(itemName).value).Success?
  }

  /** Accepted settings never raise; and unless the item is the top-level
      window while none exists (then nothing is read), settings that are not
      accepted always raise. */
  lemma AcceptedIff(s: SampleState, itemName: string, values: PageData, osKey: string)
    ensures Accepted(itemName, values, osKey) ==> ChangeConfOutcome(s, itemName, values, osKey).Success?
    ensures itemName == TOPLEVEL && !ToplevelExists(s) ==> ChangeConfOutcome(s, itemName, values, osKey).Success?
    ensures itemName != TOPLEVEL || ToplevelExists(s) ==>
              (ChangeConfOutcome(s, itemName, values, osKey).Success? <==> Accepted(itemName, values, osKey))
  {
  }
}
