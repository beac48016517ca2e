/** What the setting-page codec promises: how keys are classified on the two
    paths, which values survive being built into cells and read back, how the
    variable names give back the page name, and how many layout rows a page
    takes. */
module SettingProofs {
  import opened Types
  import opened Dicts
  import opened Text
  import opened Setting

  /** Every key the constructor accepts is read back as the same kind, so the
      ValueError of `get_data` cannot be reached from a built page. */
  lemma ClassifyReadAgrees(key: string)
    requires ClassifyOnBuild(key).Some?
    ensures ClassifyOnRead(key) == ClassifyOnBuild(key)
  {
    ContainsSelf(key);
  }

  /** A string lacking the first character of `sub` does not contain `sub`. */
  lemma Lacks(s: string, sub: string)
    requires |sub| > 0 && sub[0] !in s
    ensures !Contains(s, sub)
  {
    if Contains(s, sub) {
      ContainsFirstChar(s, sub);
    }
  }

  /** The marks "Linux_font" carries: only the substring "Linux". */
  lemma LinuxFontMarks(k: string)
    requires k == "Linux_font"
    ensures !Contains(k, COLOR_MARK) && !HasNumberMark(k) && !IsFontKey(k) && HasFontMark(k)
  {
    Lacks(k, COLOR_MARK);
    Lacks(k, "corner_radius");
    Lacks(k, "width");
    Lacks(k, "length");
    Lacks(k, "spacing");
    assert k[..5] == "Linux";
  }

  /** The read path is wider than the build path: a key that merely contains
      an operating-system name is a font key when read and an error when built. */
  lemma FontKeysWiderOnRead()
    ensures ClassifyOnBuild("Linux_font") == None
    ensures ClassifyOnRead("Linux_font") == Some(Font)
  {
    LinuxFontMarks("Linux_font");
  }

  /** `on_trace_var` recovers the page name from a variable name exactly when
      the page name has no '-'. */
  lemma VarNameRecoversPage(page: string, key: string, suffix: string)
    ensures PageOfVarName(VarName(page, key, suffix)) == page <==> '-' !in page
  {
    var rest := "-" + key + "-" + suffix;
    assert VarName(page, key, suffix) == page + rest;
    if '-' !in page {
      BeforeFirstStops(page, rest, '-');
    }
  }

  /** A colour value read back through its two cells. */
  function ColorRoundTrip(v: Value): Result<Value, Error>
  {
    match ColorTexts(v)
    case Success(t) => EncodeColor(t.0, t.1)
    case Failure(e) => Failure(e)
  }

  /** The colour values that come back unchanged. */
  predicate ColorKeeps(v: Value)
  {
    || (v.VList? && |v.items| == 2 && v.items[0] != "" && v.items[1] != "" && v.items[0] != v.items[1])
    || (v.VStr? && |v.s| >= 2 && v.s[0] != v.s[1])
  }

  /** A colour comes back unchanged exactly when it is a pair of different
      non-empty strings or a string whose first two characters differ. */
  lemma ColorRoundTripIff(v: Value)
    ensures ColorRoundTrip(v) == Success(v) <==> ColorKeeps(v)
  {
    match v
    case VList(items) =>
      if |items| >= 2 && ColorRoundTrip(v) == Success(v) {
        assert EncodeColor(items[0], items[1]) == Success(v);
        assert items == [items[0], items[1]];
      }
      if |items| == 2 {
        assert items == [items[0], items[1]];
      }
    case VStr(s) =>
      if |s| >= 2 {
        assert |[s[0]]| == 1;
      }
    case _ =>
  }

  /** With one side empty the other text is kept, a doubled first character
      collapses it to that character, and fewer than two characters raise. */
  lemma EncodeColorOneSided(s: string)
    ensures EncodeColor(s, "") == EncodeColor("", s)
    ensures |s| < 2 ==> EncodeColor(s, "") == Failure(IndexError)
    ensures |s| >= 2 && s[0] == s[1] ==> EncodeColor(s, "") == Success(VStr(s[..1]))
    ensures |s| >= 2 && s[0] != s[1] ==> EncodeColor(s, "") == Success(VStr(s))
  {
    if |s| >= 2 {
      assert s[..1] == [s[0]];
    }
  }

  /** A number value read back through its cell; None when it is dropped. */
  function NumberRoundTrip(v: Value): Option<Value>
  {
    match NumberText(v)
    case Failure(_) => None
    case Success(t) => if ParseInt(t).Some? then Some(VInt(ParseInt(t).value)) else None
  }

  /** A number comes back unchanged exactly when it is an int; a string that
      parses comes back as an int and one that does not is dropped. */
  lemma NumberRoundTripIff(v: Value)
    ensures NumberRoundTrip(v) == Some(v) <==> v.VInt?
    ensures v.VStr? && ParseInt(v.s).Some? ==> NumberRoundTrip(v) == Some(VInt(ParseInt(v.s).value))
    ensures v.VStr? && ParseInt(v.s).None? ==> NumberRoundTrip(v) == None
  {
    if v.VInt? {
      ParseDecimal(v.n);
    }
  }

  /** A font sub-value comes back unchanged exactly when it is an int or a
      string that does not parse as an int. */
  lemma ScalarRoundTrip(v: Scalar)
    ensures ScalarOf(ScalarText(v)) == v <==> (v.SStr? ==> ParseInt(v.s).None?)
  {
    if v.SInt? {
      ParseDecimal(v.n);
    }
  }

  /** With distinct sub-keys every sub-value gets its own cell, in order. */
  lemma {:induction false} FontCellsDistinct(page: string, key: string, items: seq<(string, Scalar)>)
    requires Distinct(Keys(items))
    ensures |FontCells(page, key, items)| == |items|
    ensures forall i | 0 <= i < |items| ::
              FontCells(page, key, items)[i] == (items[i].0, Cell(VarName(page, key, items[i].0), ScalarText(items[i].1)))
  {
    if items != [] {
      var n := |items|;
      var init, last := items[..n - 1], items[n - 1];
      assert Keys(init) == Keys(items)[..n - 1];
      FontCellsDistinct(page, key, init);
      var cells := FontCells(page, key, init);
      assert Keys(cells) == Keys(init);
      assert last.0 !in Keys(cells) by {
        assert Keys(items)[n - 1] == last.0;
      }
      PutFresh(cells, last.0, Cell(VarName(page, key, last.0), ScalarText(last.1)));
      forall i | 0 <= i < n
        ensures FontCells(page, key, items)[i] == (items[i].0, Cell(VarName(page, key, items[i].0), ScalarText(items[i].1)))
      {
        if i < n - 1 {
          assert items[i] == init[i];
        }
      }
    }
  }

  /** With distinct keys `get_data` reads every font cell once, in order. */
  lemma {:induction false} EncodeFontDistinct(cells: Dict<string, Cell>)
    requires Distinct(Keys(cells))
    ensures |EncodeFont(cells)| == |cells|
    ensures forall i | 0 <= i < |cells| :: EncodeFont(cells)[i] == (cells[i].0, ScalarOf(cells[i].1.text))
  {
    if cells != [] {
      var init := cells[..|cells| - 1];
      assert Keys(init) == Keys(cells)[..|cells| - 1];
      EncodeFontDistinct(init);
      assert Keys(EncodeFont(init)) == Keys(init);
      PutFresh(EncodeFont(init), cells[|cells| - 1].0, ScalarOf(cells[|cells| - 1].1.text));
    }
  }

  /** The font sub-dict `get_data` builds never repeats a key. */
  lemma {:induction false} EncodeFontKeysDistinct(cells: Dict<string, Cell>)
    ensures Distinct(Keys(EncodeFont(cells)))
  {
    if cells != [] {
      EncodeFontKeysDistinct(cells[..|cells| - 1]);
      PutDistinct(EncodeFont(cells[..|cells| - 1]), cells[|cells| - 1].0, ScalarOf(cells[|cells| - 1].1.text));
    }
  }

  /** The font sub-dicts that come back unchanged. */
  predicate FontKeeps(items: seq<(string, Scalar)>)
  {
    && Distinct(Keys(items))
    && forall i | 0 <= i < |items| :: items[i].1.SStr? ==> ParseInt(items[i].1.s).None?
  }

  /** A font sub-dict comes back unchanged exactly when its keys are distinct
      and every string in it does not parse as an int. */
  lemma FontRoundTripIff(page: string, key: string, items: seq<(string, Scalar)>)
    ensures EncodeFont(FontCells(page, key, items)) == items <==> FontKeeps(items)
  {
    var cells := FontCells(page, key, items);
    if FontKeeps(items) {
      FontCellsDistinct(page, key, items);
      assert Keys(cells) == Keys(items);
      EncodeFontDistinct(cells);
      forall i | 0 <= i < |items| ensures EncodeFont(cells)[i] == items[i] {
        ScalarRoundTrip(items[i].1);
      }
    }
    if EncodeFont(cells) == items {
      EncodeFontKeysDistinct(cells);
      FontCellsDistinct(page, key, items);
      assert Keys(cells) == Keys(items);
      EncodeFontDistinct(cells);
      forall i | 0 <= i < |items| && items[i].1.SStr? ensures ParseInt(items[i].1.s).None? {
        assert EncodeFont(cells)[i] == items[i];
        ScalarRoundTrip(items[i].1);
      }
    }
  }

  /** A setting that comes back unchanged after being built and read. */
  predicate FieldKeeps(key: string, v: Value)
  {
    match ClassifyOnBuild(key)
    case None => false
    case Some(Color) => ColorKeeps(v)
    case Some(Number) => v.VInt?
    case Some(Font) => v.VDict? && FontKeeps(v.entries)
  }

  /** A page whose settings all come back unchanged. */
  predicate PageKeeps(values: PageData)
  {
    Distinct(Keys(values)) && forall i | 0 <= i < |values| :: FieldKeeps(values[i].0, values[i].1)
  }

  /** One entry built from a setting that keeps is read back as that setting. */
  lemma FieldRoundTrip(page: string, b: Built, key: string, v: Value)
    requires b.error.None? && FieldKeeps(key, v)
    ensures FieldStep(page, b, key, v).error.None?
    ensures exists e :: FieldStep(page, b, key, v).entries == Put(b.entries, key, e) && EncodeEntry(key, e, true) == Success(Some(v))
  {
    ClassifyReadAgrees(key);
    match ClassifyOnBuild(key)
    case Some(Color) =>
      ColorRoundTripIff(v);
      var e := ColorEntryOf(page, key, ColorTexts(v).value);
      assert EncodeEntry(key, e, true) == Success(Some(v));
    case Some(Number) =>
      ParseDecimal(v.n);
      var e := NumberEntryOf(page, key, DecimalText(v.n));
      assert EncodeEntry(key, e, true) == Success(Some(v));
    case Some(Font) =>
      FontRoundTripIff(page, key, v.entries);
      var e := FontEntry(FontCells(page, key, v.entries));
      assert EncodeEntry(key, e, true) == Success(Some(v));
  }

  /** Building a page whose settings keep and reading it back gives the same
      settings, in the same order. */
  lemma {:induction false} PageRoundTrip(page: string, values: PageData)
    requires PageKeeps(values)
    ensures BuildFields(page, values).error.None?
    ensures Keys(BuildFields(page, values).entries) == Keys(values)
    ensures EncodeEntries(BuildFields(page, values).entries, true) == Success(values)
  {
    if values != [] {
      var n := |values|;
      var init, last := values[..n - 1], values[n - 1];
      assert values == init + [last];
      assert Keys(init) == Keys(values)[..n - 1];
      assert PageKeeps(init);
      PageRoundTrip(page, init);
      assert last.0 !in Keys(init) by {
        assert Keys(values)[n - 1] == last.0;
      }
      PageRoundTripStep(page, init, last);
    }
  }

  /** The inductive step of `PageRoundTrip`: one more setting, with a new key. */
  lemma PageRoundTripStep(page: string, init: PageData, last: (string, Value))
    requires BuildFields(page, init).error.None? && Keys(BuildFields(page, init).entries) == Keys(init)
    requires EncodeEntries(BuildFields(page, init).entries, true) == Success(init)
    requires last.0 !in Keys(init) && FieldKeeps(last.0, last.1)
    ensures BuildFields(page, init + [last]).error.None?
    ensures Keys(BuildFields(page, init + [last]).entries) == Keys(init + [last])
    ensures EncodeEntries(BuildFields(page, init + [last]).entries, true) == Success(init + [last])
  {
    var values := init + [last];
    var k, v := last.0, last.1;
    var b := BuildFields(page, init);
    assert values[..|values| - 1] == init;
    FieldRoundTrip(page, b, k, v);
    var e :| FieldStep(page, b, k, v).entries == Put(b.entries, k, e) && EncodeEntry(k, e, true) == Success(Some(v));
    PutFresh(b.entries, k, e);
    var entries := b.entries + [(k, e)];
    assert BuildFields(page, values).entries == entries;
    assert entries[..|entries| - 1] == b.entries;
    PutFresh(init, k, v);
    assert EncodeEntries(entries, true) == Success(init + [(k, v)]);
    KeysSnoc(b.entries, (k, e));
    KeysSnoc(init, last);
  }

  /** A setting that gets at least one entry widget: every setting but a font
      with no sub-keys. */
  predicate HasEntryWidget(values: PageData)
  {
    exists j | 0 <= j < |values| :: values[j].1 != VDict([])
  }

  /** One more setting has an entry widget exactly when it is not an empty
      font or an earlier one has. */
  lemma WidgetSnoc(init: PageData, last: (string, Value))
    ensures HasEntryWidget(init + [last]) <==> HasEntryWidget(init) || last.1 != VDict([])
  {
    var values := init + [last];
    if HasEntryWidget(init) {
      var j :| 0 <= j < |init| && init[j].1 != VDict([]);
      assert values[j] == init[j];
    } else if last.1 != VDict([]) {
      assert values[|values| - 1] == last;
    } else {
      forall j | 0 <= j < |values| ensures values[j].1 == VDict([]) {
        if j < |init| {
          assert values[j] == init[j];
        }
      }
    }
  }

  /** `get_data` on the destroyed page built from settings that keep: the
      first setting with an entry widget raises TclError; a page without
      one still reads back unchanged. */
  lemma {:induction false} DestroyedPageRead(page: string, values: PageData)
    requires PageKeeps(values)
    ensures EncodeEntries(BuildFields(page, values).entries, false) ==
            if HasEntryWidget(values) then Failure(TclError) else Success(values)
  {
    if values != [] {
      var n := |values|;
      var init, last := values[..n - 1], values[n - 1];
      assert values == init + [last];
      assert Keys(init) == Keys(values)[..n - 1];
      assert PageKeeps(init);
      DestroyedPageRead(page, init);
      PageRoundTrip(page, init);
      assert last.0 !in Keys(init) by {
        assert Keys(values)[n - 1] == last.0;
      }
      DestroyedPageReadStep(page, init, last);
    }
  }

  /** The inductive step of `DestroyedPageRead`. */
  lemma DestroyedPageReadStep(page: string, init: PageData, last: (string, Value))
    requires BuildFields(page, init).error.None? && Keys(BuildFields(page, init).entries) == Keys(init)
    requires EncodeEntries(BuildFields(page, init).entries, false) ==
             if HasEntryWidget(init) then Failure(TclError) else Success(init)
    requires last.0 !in Keys(init) && FieldKeeps(last.0, last.1)
    ensures EncodeEntries(BuildFields(page, init + [last]).entries, false) ==
            if HasEntryWidget(init + [last]) then Failure(TclError) else Success(init + [last])
  {
    var values := init + [last];
    var k, v := last.0, last.1;
    var b := BuildFields(page, init);
    assert values[..|values| - 1] == init;
    FieldRoundTrip(page, b, k, v);
    var e :| FieldStep(page, b, k, v).entries == Put(b.entries, k, e) && EncodeEntry(k, e, true) == Success(Some(v));
    PutFresh(b.entries, k, e);
    var entries := b.entries + [(k, e)];
    assert BuildFields(page, values).entries == entries;
    WidgetSnoc(init, last);
    DestroyedSnoc(b.entries, k, e, init, v);
  }

  /** Reading a destroyed page one entry further: the entry's widgets raise
      TclError unless it is an empty font, which reads back as before. */
  lemma DestroyedSnoc(entries: Dict<string, Entry>, k: string, e: Entry, init: PageData, v: Value)
    requires EncodeEntries(entries, false) == Failure(TclError) || EncodeEntries(entries, false) == Success(init)
    requires EncodeEntry(k, e, true) == Success(Some(v)) && k !in Keys(init)
    ensures EncodeEntries(entries, false).Failure? ==> EncodeEntries(entries + [(k, e)], false) == Failure(TclError)
    ensures EncodeEntries(entries, false).Success? ==>
              EncodeEntries(entries + [(k, e)], false) ==
              if v == VDict([]) then Success(init + [(k, v)]) else Failure(TclError)
  {
    var all := entries + [(k, e)];
    assert all[..|all| - 1] == entries;
    PutFresh(init, k, v);
  }

  /** An entry whose shape is the one the constructor gives its key. */
  predicate EntryFits(key: string, e: Entry)
  {
    match ClassifyOnBuild(key)
    case None => false
    case Some(Color) => e.ColorEntry?
    case Some(Number) => e.NumberEntry?
    case Some(Font) => e.FontEntry?
  }

  predicate AllFit(entries: Dict<string, Entry>)
  {
    forall i | 0 <= i < |entries| :: EntryFits(entries[i].0, entries[i].1)
  }

  /** Every entry the constructor stores, even when it stops early, fits its key. */
  lemma {:induction false} BuiltEntriesFit(page: string, values: PageData)
    ensures AllFit(BuildFields(page, values).entries)
  {
    if values != [] {
      var init := values[..|values| - 1];
      BuiltEntriesFit(page, init);
      var b := BuildFields(page, init);
      if b.error.None? {
        var (k, v) := values[|values| - 1];
        var after := FieldStep(page, b, k, v).entries;
        if after != b.entries {
          var e :| after == Put(b.entries, k, e) && EntryFits(k, e);
          PutPairs(b.entries, k, e);
          forall i | 0 <= i < |after| ensures EntryFits(after[i].0, after[i].1) {
            assert after[i] in after;
          }
        }
      }
    }
  }

  /** Reading back entries that fit their keys can only fail on a colour of
      fewer than two characters: the IndexError of the second colour check
      in `get_data`. */
  lemma {:induction false} FittingEntriesOnlyIndexError(entries: Dict<string, Entry>)
    requires AllFit(entries)
    ensures EncodeEntries(entries, true).Failure? ==> EncodeEntries(entries, true).error == IndexError
  {
    if entries != [] {
      FittingEntriesOnlyIndexError(entries[..|entries| - 1]);
      var (k, e) := entries[|entries| - 1];
      ClassifyReadAgrees(k);
    }
  }

  /** `get_data` on a page the constructor built raises neither the
      ValueError for an unsupported key nor a shape mismatch. */
  lemma BuiltPageReadsBack(page: string, values: PageData)
    ensures var r := EncodeEntries(BuildFields(page, values).entries, true);
      r.Failure? ==> r.error == IndexError
  {
    BuiltEntriesFit(page, values);
    FittingEntriesOnlyIndexError(BuildFields(page, values).entries);
  }

  /** The rows a page takes: one per colour or number setting and one per
      sub-key of a font setting. */
  function RowCount(values: PageData): int
  {
    if values == [] then 0
    else
      var (k, v) := values[|values| - 1];
      RowCount(values[..|values| - 1]) + (if ClassifyOnBuild(k) == Some(Font) && v.VDict? then |v.entries| else 1)
  }

  /** A page built without an exception ends on the row `RowCount` gives. */
  lemma {:induction false} BuildRows(page: string, values: PageData)
    requires BuildFields(page, values).error.None?
    ensures BuildFields(page, values).row == RowCount(values)
  {
    if values != [] {
      BuildRows(page, values[..|values| - 1]);
    }
  }
}
