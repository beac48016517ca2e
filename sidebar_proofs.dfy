/** What the sidebar promises: delete-all keeps at most the excluded entry,
    a new button lands at the row the frame dictates, and selection keeps
    exactly one highlighted button. */
module SidebarProofs {
  import opened Types
  import opened Sidebar

  /** After `on_del_all_button(x)` the table holds at most `x`'s entry,
      unchanged; every other button of the table is destroyed; the button
      list and the selection are untouched, so the selection may now name a
      destroyed button. The invariant is kept. */
  lemma DelAllEffect(s: SidebarState, x: string)
    ensures var r := DelAll(s, x);
      && (forall k :: k in r.items <==> k == x && x in s.items)
      && (x in s.items ==> r.items[x] == s.items[x])
      && (forall k | k in s.items && k != x :: s.items[k] in r.destroyed)
      && s.destroyed <= r.destroyed
      && r.buttons == s.buttons && r.current == s.current
      && (Valid(s) ==> Valid(r))
  {
  }

  /** Adding a header button makes it one more child of the header frame. */
  lemma HeaderGrows(s: SidebarState, name: string)
    requires Valid(s)
    ensures AddOutcome(s, HEADER, name).Success?
    ensures HeaderChildren(AddOutcome(s, HEADER, name).value) == HeaderChildren(s) + 1
  {
    var r := AddOutcome(s, HEADER, name).value;
    var n := |s.buttons|;
    assert n !in LiveHeaderButtons(s);
    assert LiveHeaderButtons(r) == LiveHeaderButtons(s) + {n};
  }

  /** `on_add_button` stores the new button under `name`, replacing any entry
      of that name and leaving the others; a MAIN button goes at the table's
      former size, a HEADER button at the header's child count, and every
      earlier button, the selection, the destroyed set and the appearance
      stay as they were; any other frame raises ValueError. The invariant
      is kept. */
  lemma AddEffect(s: SidebarState, frame: string, name: string)
    requires Valid(s)
    ensures var r := AddOutcome(s, frame, name);
      && (r.Failure? <==> frame != HEADER && frame != MAIN)
      && (r.Failure? ==> r.error == ValueError)
      && (r.Success? ==>
            && r.value.items.Keys == s.items.Keys + {name}
            && r.value.items[name] == |s.buttons| && |r.value.buttons| == |s.buttons| + 1
            && (forall k | k in s.items && k != name :: r.value.items[k] == s.items[k])
            && r.value.buttons[|s.buttons|] == Button(frame, name, if frame == MAIN then |s.items| else HeaderChildren(s), Normal)
            && r.value.buttons[..|s.buttons|] == s.buttons
            && r.value.current == s.current && r.value.destroyed == s.destroyed
            && r.value.appearance == s.appearance
            && Valid(r.value))
  {
  }

  /** `on_select_button` keeps the invariant. A known name becomes current and
      its button is the only highlighted one; an unknown name raises KeyError
      with no button highlighted and the selection unchanged. When the
      current button has been destroyed, TclError is raised and nothing
      changes. */
  lemma SelectEffect(s: SidebarState, name: string)
    requires Valid(s)
    ensures var (r, err) := SelectOutcome(s, name);
      && Valid(r)
      && r.items == s.items && r.destroyed == s.destroyed && |r.buttons| == |s.buttons|
      && (CurrentDestroyed(s) ==> err == Some(TclError) && r == s)
      && (!CurrentDestroyed(s) && name in s.items ==>
            && err.None? && r.current == Some(s.items[name])
            && forall i | 0 <= i < |r.buttons| :: r.buttons[i].shade == Highlighted <==> i == s.items[name])
      && (!CurrentDestroyed(s) && name !in s.items ==>
            && err == Some(KeyError) && r.current == s.current
            && forall i | 0 <= i < |r.buttons| :: r.buttons[i].shade == Normal)
  {
    var reset := ResetCurrent(s);
    assert forall i | 0 <= i < |reset| :: reset[i].shade == Normal;
  }

  /** Under the invariant at most one button is highlighted. */
  lemma AtMostOneHighlighted(s: SidebarState, i: nat, j: nat)
    requires Valid(s)
    requires i < |s.buttons| && j < |s.buttons|
    requires s.buttons[i].shade == Highlighted && s.buttons[j].shade == Highlighted
    ensures i == j
  {
  }
}
