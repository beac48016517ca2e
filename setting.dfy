/** A setting page: one text cell per theme setting of a widget kind, built
    from the loaded values and read back into values. Each Tk `StringVar` is a
    string cell with its variable name; a cell created from None reads back as
    "" and one created from an int reads back as its decimal text. */
module Setting {
  import opened Types
  import opened Dicts
  import opened Text
  import opened Base

  /** How a setting key is edited. */
  datatype Kind = Color | Number | Font

  const COLOR_MARK := "color"

  // Suffixes of the variable names (M.LIGHT, M.DARK and the number suffix).
  const LIGHT := "light"
  const DARK := "dark"
  const NONE_SUFFIX := "none"

  predicate HasNumberMark(key: string)
  {
    Contains(key, "corner_radius") || Contains(key, "width") || Contains(key, "length") || Contains(key, "spacing")
  }

  /** The three operating-system keys of a font setting, matched exactly. */
  predicate IsFontKey(key: string)
  {
    key == "macOS" || key == "Windows" || key == "Linux"
  }

  /** The same keys matched as substrings, as `get_data` does. */
  predicate HasFontMark(key: string)
  {
    Contains(key, "macOS") || Contains(key, "Windows") || Contains(key, "Linux")
  }

  /** Classification of a key when the page is built; None is a ValueError. */
  function ClassifyOnBuild(key: string): Option<Kind>
  {
    if Contains(key, COLOR_MARK) then Some(Color)
    else if HasNumberMark(key) then Some(Number)
    else if IsFontKey(key) then Some(Font)
    else None
  }

  /** Classification of a key when the page is read back; None is a ValueError. */
  function ClassifyOnRead(key: string): Option<Kind>
  {
    if Contains(key, COLOR_MARK) then Some(Color)
    else if HasNumberMark(key) then Some(Number)
    else if HasFontMark(key) then Some(Font)
    else None
  }

  /** A Tk string variable: its name and the text it holds. */
  datatype Cell = Cell(name: string, text: string)

  /** What `entry_items[key]` holds: a light/dark pair of cells for a colour,
      one cell for a number, a cell per operating-system sub-key for a font. */
  datatype Entry =
    | ColorEntry(light: Cell, dark: Cell)
    | NumberEntry(cell: Cell)
    | FontEntry(cells: Dict<string, Cell>)

  /** The variable name `'{page}-{key}-{suffix}'`. */
  function VarName(page: string, key: string, suffix: string): string
  {
    page + "-" + key + "-" + suffix
  }

  /** The item name `on_trace_var` derives from a variable name. */
  function PageOfVarName(name: string): string
  {
    BeforeFirst(name, '-')
  }

  /** The text a cell created from an int or a str holds. */
  function ScalarText(v: Scalar): string
  {
    match v
    case SInt(n) => DecimalText(n)
    case SStr(s) => s
  }

  /** The texts of the light and dark cells of a colour setting; a string
      leaves the dark cell empty. */
  function ColorTexts(v: Value): Result<(string, string), Error>
  {
    match v
    case VList(items) => if |items| < 2 then Failure(IndexError) else Success((items[0], items[1]))
    case VStr(s) => Success((s, ""))
    case _ => Failure(TypeError)
  }

  /** The text of the cell of a number setting. Tk's rendering of a list or
      dict as text is not modelled. */
  function NumberText(v: Value): Result<string, Error>
  {
    match v
    case VInt(n) => Success(DecimalText(n))
    case VStr(s) => Success(s)
    case _ => Failure(Unmodelled)
  }

  function ColorEntryOf(page: string, key: string, texts: (string, string)): Entry
  {
    ColorEntry(Cell(VarName(page, key, LIGHT), texts.0), Cell(VarName(page, key, DARK), texts.1))
  }

  function NumberEntryOf(page: string, key: string, text: string): Entry
  {
    NumberEntry(Cell(VarName(page, key, NONE_SUFFIX), text))
  }

  /** The cells of a font setting, one per sub-key, written in order. */
  function FontCells(page: string, key: string, items: seq<(string, Scalar)>): Dict<string, Cell>
  {
    if items == [] then []
    else
      var (k, v) := items[|items| - 1];
      Put(FontCells(page, key, items[..|items| - 1]), k, Cell(VarName(page, key, k), ScalarText(v)))
  }

  /** The state of the page construction: the entries built so far, the next
      layout row and the exception raised, if any. */
  datatype Built = Built(entries: Dict<string, Entry>, row: int, error: Option<Error>)

  /** `create_entry_color` applied to a construction state. */
  function ColorStep(page: string, b: Built, key: string, v: Value): Built
  {
    match ColorTexts(v)
    case Failure(e) => b.(error := Some(e))
    case Success(t) => Built(Put(b.entries, key, ColorEntryOf(page, key, t)), b.row + 1, None)
  }

  /** `create_entry_number` applied to a construction state. */
  function NumberStep(page: string, b: Built, key: string, v: Value): Built
  {
    match NumberText(v)
    case Failure(e) => b.(error := Some(e))
    case Success(t) => Built(Put(b.entries, key, NumberEntryOf(page, key, t)), b.row + 1, None)
  }

  /** `create_entry_font` applied to a construction state: the empty sub-dict
      is stored before `val.items()` fails on a value that is not a dict. */
  function FontStep(page: string, b: Built, key: string, v: Value): Built
  {
    match v
    case VDict(items) => Built(Put(b.entries, key, FontEntry(FontCells(page, key, items))), b.row + |items|, None)
    case _ => Built(Put(b.entries, key, FontEntry([])), b.row, Some(AttributeError))
  }

  /** One iteration of the constructor loop. */
  function FieldStep(page: string, b: Built, key: string, v: Value): Built
  {
    match ClassifyOnBuild(key)
    case None => b.(error := Some(ValueError))
    case Some(Color) => ColorStep(page, b, key, v)
    case Some(Number) => NumberStep(page, b, key, v)
    case Some(Font) => FontStep(page, b, key, v)
  }

  /** The constructor loop over `values`, starting at row 0 and stopping at
      the first exception. */
  function BuildFields(page: string, values: PageData): Built
  {
    if values == [] then Built([], 0, None)
    else
      var b := BuildFields(page, values[..|values| - 1]);
      if b.error.Some? then b
      else FieldStep(page, b, values[|values| - 1].0, values[|values| - 1].1)
  }

  /** Lines 258-262 of `get_data`: a pair of different non-empty texts stays a
      pair, equal texts collapse to one; with one side empty the other text is
      kept, and then its first two characters are compared. */
  function EncodeColor(light: string, dark: string): Result<Value, Error>
  {
    if light != "" && dark != "" then
      (if light == dark then Success(VStr(light)) else Success(VList([light, dark])))
    else
      var s := if light != "" then light else dark;
      if |s| < 2 then Failure(IndexError)
      else if s[0] == s[1] then Success(VStr([s[0]]))
      else Success(VStr(s))
  }

  /** A font sub-value: an int when the text parses, the text otherwise. */
  function ScalarOf(text: string): Scalar
  {
    match ParseInt(text)
    case Some(n) => SInt(n)
    case None => SStr(text)
  }

  /** The font sub-dict `get_data` builds from the cells, in order. */
  function EncodeFont(cells: Dict<string, Cell>): seq<(string, Scalar)>
  {
    if cells == [] then []
    else Put(EncodeFont(cells[..|cells| - 1]), cells[|cells| - 1].0, ScalarOf(cells[|cells| - 1].1.text))
  }

  /** What `get_data` stores for one entry: a value, nothing (a number that
      does not parse), or an exception. `live` is false once the page's
      widgets are destroyed: reading any of its entries then raises TclError. */
  function EncodeEntry(key: string, e: Entry, live: bool): Result<Option<Value>, Error>
  {
    match ClassifyOnRead(key)
    case None => Failure(ValueError)
    case Some(Color) =>
      (match e
       case ColorEntry(l, d) =>
         if !live then Failure(TclError)
         else
           (match EncodeColor(l.text, d.text)
            case Success(v) => Success(Some(v))
            case Failure(err) => Failure(err))
       case _ => Failure(Unmodelled))
    case Some(Number) =>
      (match e
       case NumberEntry(c) =>
         if !live then Failure(TclError)
         else
           (match ParseInt(c.text)
            case Some(n) => Success(Some(VInt(n)))
            case None => Success(None))
       case _ => Failure(Unmodelled))
    case Some(Font) =>
      (match e
       case FontEntry(cells) =>
         if !live && cells != [] then Failure(TclError)
         else Success(Some(VDict(EncodeFont(cells))))
       case _ => Failure(Unmodelled))
  }

  /** `get_data`: the entries encoded in order, or the first exception. */
  function EncodeEntries(entries: Dict<string, Entry>, live: bool): Result<PageData, Error>
  {
    if entries == [] then Success([])
    else
      match EncodeEntries(entries[..|entries| - 1], live)
      case Failure(err) => Failure(err)
      case Success(data) =>
        var (key, e) := entries[|entries| - 1];
        match EncodeEntry(key, e, live)
        case Failure(err) => Failure(err)
        case Success(None) => Success(data)
        case Success(Some(v)) => Success(Put(data, key, v))
  }

  class SettingPage {
    const pageName: string
    /** Identity of this page object's bound `on_get_data` on the bus. */
    const instance: nat
    var entryItems: Dict<string, Entry>
    /** Whether `destroy()` has been called on the page's frame, which takes
        every entry widget of the page with it. */
    var destroyed: bool

    /** Lines 54-62 of `SettingPage.__init__`: the page name is stored and the
        base component registers `on_get_data` for GET_DATA. */
    constructor (bus: EventBus<Callback>, pageName: string, instance: nat)
      modifies bus
      ensures this.pageName == pageName && this.instance == instance && entryItems == [] && !destroyed
      ensures bus.listeners == Subscribed(old(bus.listeners), GET_DATA, SettingGetData(instance))
    {
      this.pageName := pageName;
      this.instance := instance;
      entryItems := [];
      destroyed := false;
      new;
      Register(bus, Some([(GET_DATA, SettingGetData(instance))]));
    }

    /** `create_entry_color`: a colour setting takes exactly one row. */
    method CreateEntryColor(key: string, val: Value, row: int) returns (r: Result<int, Error>)
      modifies this
      ensures destroyed == old(destroyed)
      ensures r.Success? ==> r.value == row + 1
      ensures var b := ColorStep(pageName, Built(old(entryItems), row, None), key, val);
        entryItems == b.entries && r == (if b.error.None? then Success(b.row) else Failure(b.error.value))
    {
      var texts: (string, string);
      match val {
        case VList(items) =>
          if |items| < 2 {
            return Failure(IndexError);
          }
          texts := (items[0], items[1]);
        case VStr(s) =>
          texts := (s, "");
        case _ =>
          return Failure(TypeError);
      }
      entryItems := Put(entryItems, key, ColorEntry(Cell(VarName(pageName, key, LIGHT), texts.0),
                                                    Cell(VarName(pageName, key, DARK), texts.1)));
      r := Success(row + 1);
    }

    /** `create_entry_number`: a number setting takes exactly one row. */
    method CreateEntryNumber(key: string, val: Value, row: int) returns (r: Result<int, Error>)
      modifies this
      ensures destroyed == old(destroyed)
      ensures r.Success? ==> r.value == row + 1
      ensures var b := NumberStep(pageName, Built(old(entryItems), row, None), key, val);
        entryItems == b.entries && r == (if b.error.None? then Success(b.row) else Failure(b.error.value))
    {
      var text: string;
      match val {
        case VInt(n) => text := DecimalText(n);
        case VStr(s) => text := s;
        case _ => return Failure(Unmodelled);
      }
      entryItems := Put(entryItems, key, NumberEntry(Cell(VarName(pageName, key, NONE_SUFFIX), text)));
      r := Success(row + 1);
    }

    /** `create_entry_font`: a font setting takes one row per sub-key. */
    method CreateEntryFont(key: string, val: Value, row: int) returns (r: Result<int, Error>)
      modifies this
      ensures destroyed == old(destroyed)
      ensures r.Success? ==> val.VDict? && r.value == row + |val.entries|
      ensures var b := FontStep(pageName, Built(old(entryItems), row, None), key, val);
        entryItems == b.entries && r == (if b.error.None? then Success(b.row) else Failure(b.error.value))
    {
      var before := entryItems;
      entryItems := Put(entryItems, key, FontEntry([]));
      if !val.VDict? {
        return Failure(AttributeError);
      }
      var items := val.entries;
      var cells: Dict<string, Cell> := [];
      var next := row;
      for i := 0 to |items|
        invariant cells == FontCells(pageName, key, items[..i])
        invariant next == row + i
      {
        var (k, v) := items[i];
        assert items[..i + 1][..i] == items[..i];
        cells := Put(cells, k, Cell(VarName(pageName, key, k), ScalarText(v)));
        next := next + 1;
      }
      assert items[..|items|] == items;
      entryItems := Put(before, key, FontEntry(cells));
      r := Success(next);
    }

    /** Lines 66-97 of `SettingPage.__init__`: every setting is classified and
        gets its cells, threading the layout row; then CHANGE_CONF is published
        with the page's data. The first exception stops the construction and
        leaves the entries built so far. */
    method Populate(values: PageData) returns (row: int, r: Result<Publication, Error>)
      modifies this
      ensures destroyed == old(destroyed)
      ensures var b := BuildFields(pageName, values);
        && entryItems == b.entries && row == b.row
        && (b.error.Some? ==> r == Failure(b.error.value))
        && (b.error.None? ==>
              r == match EncodeEntries(b.entries, !destroyed)
                   case Success(data) => Success(ChangeConf(pageName, data))
                   case Failure(err) => Failure(err))
    {
      var failed;
      row, failed := CreateEntries(values);
      if failed.Some? {
        return row, Failure(failed.value);
      }
      var data := GetData();
      match data {
        case Success(d) => r := Success(ChangeConf(pageName, d));
        case Failure(err) => r := Failure(err);
      }
    }

    /** Lines 80-91 of `SettingPage.__init__`: the loop over the settings,
        from an empty entries table and row 0. */
    method CreateEntries(values: PageData) returns (row: int, failed: Option<Error>)
      modifies this
      ensures destroyed == old(destroyed)
      ensures BuildFields(pageName, values) == Built(entryItems, row, failed)
    {
      entryItems := [];
      row := 0;
      var i := 0;
      while i < |values|
        invariant 0 <= i <= |values|
        invariant BuildFields(pageName, values[..i]) == Built(entryItems, row, None)
        invariant destroyed == old(destroyed)
      {
        var (key, val) := values[i];
        assert values[..i + 1][..i] == values[..i];
        var step := CreateEntry(key, val, row);
        if step.Failure? {
          ErrorSticks(pageName, values, i + 1);
          return row, Some(step.error);
        }
        row := step.value;
        i := i + 1;
      }
      assert values[..|values|] == values;
      failed := None;
    }

    /** Lines 82-91 of `SettingPage.__init__`: the key picks the kind of
        entry, colour first, then number, then font; any other key raises
        ValueError and builds nothing. */
    method CreateEntry(key: string, val: Value, row: int) returns (step: Result<int, Error>)
      modifies this
      ensures destroyed == old(destroyed)
      ensures var b := FieldStep(pageName, Built(old(entryItems), row, None), key, val);
        entryItems == b.entries && step == (if b.error.None? then Success(b.row) else Failure(b.error.value))
    {
      if Contains(key, COLOR_MARK) {
        step := CreateEntryColor(key, val, row);
      } else if HasNumberMark(key) {
        step := CreateEntryNumber(key, val, row);
      } else if IsFontKey(key) {
        step := CreateEntryFont(key, val, row);
      } else {
        step := Failure(ValueError);
      }
    }

    /** `get_data`: the page's current values, or the first exception. */
    method GetData() returns (r: Result<PageData, Error>)
      ensures r == EncodeEntries(entryItems, !destroyed)
    {
      var data: PageData := [];
      for i := 0 to |entryItems|
        invariant EncodeEntries(entryItems[..i], !destroyed) == Success(data)
      {
        var (key, val) := entryItems[i];
        assert entryItems[..i + 1][..i] == entryItems[..i];
        var failed: Option<Error> := None;
        if Contains(key, COLOR_MARK) {
          if !val.ColorEntry? {
            failed := Some(Unmodelled);
          } else if destroyed {
            failed := Some(TclError);
          } else {
            var c := EncodeColor(val.light.text, val.dark.text);
            if c.Failure? {
              failed := Some(c.error);
            } else {
              data := Put(data, key, c.value);
            }
          }
        } else if HasNumberMark(key) {
          if !val.NumberEntry? {
            failed := Some(Unmodelled);
          } else if destroyed {
            failed := Some(TclError);
          } else {
            var n := ParseInt(val.cell.text);
            if n.Some? {
              data := Put(data, key, VInt(n.value));
            }
          }
        } else if HasFontMark(key) {
          if !val.FontEntry? {
            failed := Some(Unmodelled);
          } else if destroyed && val.cells != [] {
            failed := Some(TclError);
          } else {
            var cells := val.cells;
            var sub: seq<(string, Scalar)> := [];
            for j := 0 to |cells|
              invariant sub == EncodeFont(cells[..j])
            {
              assert cells[..j + 1][..j] == cells[..j];
              sub := Put(sub, cells[j].0, ScalarOf(cells[j].1.text));
            }
            assert cells[..|cells|] == cells;
            data := Put(data, key, VDict(sub));
          }
        } else {
          failed := Some(ValueError);
        }
        if failed.Some? {
          assert EncodeEntries(entryItems[..i + 1], !destroyed) == Failure(failed.value);
          EncodeErrorSticks(entryItems, i + 1, !destroyed);
          return Failure(failed.value);
        }
      }
      assert entryItems[..|entryItems|] == entryItems;
      r := Success(data);
    }

    /** `on_trace_var`: an edit of variable `name` publishes CHANGE_CONF for
        the item named before the first '-' of `name`, with the page's data. */
    method OnTraceVar(name: string) returns (r: Result<Publication, Error>)
      ensures r.Success? ==> r.value.ChangeConf? && r.value.itemName == PageOfVarName(name)
      ensures EncodeEntries(entryItems, !destroyed).Success? <==> r.Success?
      ensures r.Success? ==> r.value.values == EncodeEntries(entryItems, !destroyed).value
    {
      var data := GetData();
      match data {
        case Success(d) => r := Success(ChangeConf(PageOfVarName(name), d));
        case Failure(err) => r := Failure(err);
      }
    }

    /** `on_get_data`: sends the page's data to the Home page under the page name. */
    method OnGetData() returns (r: Result<Publication, Error>)
      ensures EncodeEntries(entryItems, !destroyed).Success? <==> r.Success?
      ensures r.Success? ==> r.value == RecieveData(pageName, EncodeEntries(entryItems, !destroyed).value)
      ensures r.Failure? ==> r.error == EncodeEntries(entryItems, !destroyed).error
    {
      var data := GetData();
      match data {
        case Success(d) => r := Success(RecieveData(pageName, d));
        case Failure(err) => r := Failure(err);
      }
    }

    /** The frame's `destroy()`: the entry widgets go with it, while the
        entries table and the bus subscription stay as they were. */
    method Destroy()
      modifies this
      ensures destroyed && entryItems == old(entryItems)
    {
      destroyed := true;
    }
  }

  /** Once the constructor loop has raised, later settings change nothing. */
  lemma {:induction false} ErrorSticks(page: string, values: PageData, j: nat)
    requires j <= |values|
    requires BuildFields(page, values[..j]).error.Some?
    ensures BuildFields(page, values) == BuildFields(page, values[..j])
    decreases |values| - j
  {
    if j < |values| {
      assert values[..j + 1][..j] == values[..j];
      ErrorSticks(page, values, j + 1);
    } else {
      assert values[..j] == values;
    }
  }

  /** Once `get_data` has raised, later entries change nothing. */
  lemma {:induction false} EncodeErrorSticks(entries: Dict<string, Entry>, j: nat, live: bool)
    requires j <= |entries|
    requires EncodeEntries(entries[..j], live).Failure?
    ensures EncodeEntries(entries, live) == EncodeEntries(entries[..j], live)
    decreases |entries| - j
  {
    if j < |entries| {
      assert entries[..j + 1][..j] == entries[..j];
      EncodeErrorSticks(entries, j + 1, live);
    } else {
      assert entries[..j] == entries;
    }
  }
}
