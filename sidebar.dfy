/** The sidebar: a header frame holding the light/dark switch and the Home
    button, a main frame holding one button per setting page, the table from
    page name to button and the currently selected button. A button is a
    record of where it was placed and its colour; every button ever created
    keeps its index in `buttons`, and destroyed ones are remembered by index. */
module Sidebar {
  import opened Types
  import opened Base

  /** The button's fg_color: the frame's transparent colour, or the hover
      colour that marks the current button. */
  datatype Shade = Normal | Highlighted

  datatype Button = Button(frame: string, name: string, row: int, shade: Shade)

  /** A snapshot of the sidebar: the buttons created so far, the ones
      destroyed, `sidebar_items` as indices into `buttons`, `current_item`,
      and the appearance mode last set by the switch. */
  datatype SidebarState = SidebarState(buttons: seq<Button>, destroyed: set<nat>, items: map<string, nat>,
                                       current: Option<nat>, appearance: string)

  /** The invariant the sidebar keeps: the table, the destroyed set and the
      selection refer to created buttons, and only the current button is highlighted. */
  predicate Valid(s: SidebarState)
  {
    && (forall k | k in s.items :: s.items[k] < |s.buttons|)
    && (forall i | i in s.destroyed :: i < |s.buttons|)
    && (s.current.Some? ==> s.current.value < |s.buttons|)
    && (forall i | 0 <= i < |s.buttons| && s.buttons[i].shade == Highlighted :: s.current == Some(i))
  }

  /** The header buttons not destroyed. */
  function LiveHeaderButtons(s: SidebarState): set<nat>
  {
    set i: nat | i < |s.buttons| && s.buttons[i].frame == HEADER && i !in s.destroyed
  }

  /** `len(header_frame.winfo_children())`: the switch and the live header buttons. */
  function HeaderChildren(s: SidebarState): nat
  {
    1 + |LiveHeaderButtons(s)|
  }

  /** The state after `on_del_all_button(exclude)`: every button in the table
      but the excluded one is destroyed and removed from the table. */
  function DelAll(s: SidebarState, exclude: string): SidebarState
  {
    s.(destroyed := s.destroyed + set k | k in s.items && k != exclude :: s.items[k],
       items := map k | k in s.items && k == exclude :: s.items[k])
  }

  /** The outcome of `on_add_button(frame, name)`: a new button in that frame
      at the next row, stored under `name`; ValueError for another frame. */
  function AddOutcome(s: SidebarState, frame: string, name: string): Result<SidebarState, Error>
  {
    if frame == HEADER || frame == MAIN then
      var row := if frame == HEADER then HeaderChildren(s) else |s.items|;
      Success(s.(buttons := s.buttons + [Button(frame, name, row, Normal)], items := s.items[name := |s.buttons|]))
    else Failure(ValueError)
  }

  /** The buttons with the current one, if any, reset to the normal colour. */
  function ResetCurrent(s: SidebarState): seq<Button>
  {
    if s.current.Some? && s.current.value < |s.buttons|
    then s.buttons[s.current.value := s.buttons[s.current.value].(shade := Normal)]
    else s.buttons
  }

  /** `current_item` is a button that has been destroyed. */
  predicate CurrentDestroyed(s: SidebarState)
  {
    s.current.Some? && s.current.value in s.destroyed
  }

  /** The outcome of `on_select_button(name)`: the previous button is reset
      first, so an unknown name leaves no button highlighted and raises
      KeyError; resetting a previous button that has been destroyed raises
      TclError and changes nothing. */
  function SelectOutcome(s: SidebarState, name: string): (SidebarState, Option<Error>)
    requires Valid(s)
  {
    if CurrentDestroyed(s) then (s, Some(TclError))
    else
      var reset := ResetCurrent(s);
      if name !in s.items then (s.(buttons := reset), Some(KeyError))
      else
        var i := s.items[name];
        (s.(buttons := reset[i := reset[i].(shade := Highlighted)], current := Some(i)), None)
  }

  /** The appearance mode `on_switch_mode` sets. */
  function SwitchedMode(switchOn: bool): (m: string)
    ensures m == "dark" <==> switchOn
    ensures m == "light" <==> !switchOn
  {
    if switchOn then "dark" else "light"
  }

  class SideBar {
    var buttons: seq<Button>
    var destroyed: set<nat>
    var items: map<string, nat>
    var current: Option<nat>
    var appearance: string

    function Snapshot(): SidebarState
      reads this
    {
      SidebarState(buttons, destroyed, items, current, appearance)
    }

    /** `SideBar.__init__`: no buttons, no selection, and the three handlers
        registered in order. */
    constructor (bus: EventBus<Callback>, appearance: string)
      modifies bus
      ensures Snapshot() == SidebarState([], {}, map[], None, appearance)
      ensures Valid(Snapshot())
      ensures bus.listeners == SubscribedAll(old(bus.listeners),
                [(DEL_ALL_BUTTON, SideBarDelAllButton), (ADD_BUTTON, SideBarAddButton), (SHOW_PAGE, SideBarSelectButton)])
    {
      buttons := [];
      destroyed := {};
      items := map[];
      current := None;
      this.appearance := appearance;
      new;
      Register(bus, Some([(DEL_ALL_BUTTON, SideBarDelAllButton), (ADD_BUTTON, SideBarAddButton),
                          (SHOW_PAGE, SideBarSelectButton)]));
    }

    /** `on_switch_mode`. */
    method OnSwitchMode(switchOn: bool)
      modifies this
      ensures Snapshot() == old(Snapshot()).(appearance := SwitchedMode(switchOn))
    {
      if switchOn {
        appearance := "dark";
      } else {
        appearance := "light";
      }
    }

    /** `on_del_all_button`: walks the table, destroying and deleting every
        entry but `exclude`. */
    method OnDelAllButton(exclude: string)
      modifies this
      ensures Snapshot() == DelAll(old(Snapshot()), exclude)
    {
      var keys := items.Keys;
      while keys != {}
        invariant keys <= old(items).Keys
        invariant buttons == old(buttons) && current == old(current) && appearance == old(appearance)
        invariant items == map k | k in old(items) && (k == exclude || k in keys) :: old(items)[k]
        invariant destroyed == old(destroyed) + set k | k in old(items) && k != exclude && k !in keys :: old(items)[k]
        decreases keys
      {
        var k :| k in keys;
        if k != exclude {
          destroyed := destroyed + {items[k]};
          items := items - {k};
        }
        keys := keys - {k};
      }
    }

    /** `on_add_button`: the new button goes at the header frame's child count
        or at the table's size, and replaces any same-named entry. */
    method OnAddButton(frame: string, name: string) returns (err: Option<Error>)
      modifies this
      ensures var r := AddOutcome(old(Snapshot()), frame, name);
        && (r.Success? ==> err.None? && Snapshot() == r.value)
        && (r.Failure? ==> err == Some(r.error) && Snapshot() == old(Snapshot()))
    {
      var row: int;
      if frame == HEADER {
        row := HeaderChildren(Snapshot());
      } else if frame == MAIN {
        row := |items|;
      } else {
        return Some(ValueError);
      }
      items := items[name := |buttons|];
      buttons := buttons + [Button(frame, name, row, Normal)];
      err := None;
    }

    /** `on_select_button`: resets the previous button, then highlights the
        button of `name`, or raises KeyError; a destroyed previous button
        raises TclError. */
    method OnSelectButton(name: string) returns (err: Option<Error>)
      requires Valid(Snapshot())
      modifies this
      ensures (Snapshot(), err) == SelectOutcome(old(Snapshot()), name)
    {
      if current.Some? {
        if current.value in destroyed {
          return Some(TclError);
        }
        buttons := buttons[current.value := buttons[current.value].(shade := Normal)];
      }
      if name !in items {
        return Some(KeyError);
      }
      var i := items[name];
      current := Some(i);
      buttons := buttons[i := buttons[i].(shade := Highlighted)];
      err := None;
    }
  }
}
