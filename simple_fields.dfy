/** The categories whose controls are taken one at a time: text inputs,
    text areas, select-like controls, date inputs and file inputs. Each walks
    its selectors in order and each selector's matches in order, skips
    hidden or disabled controls and controls whose data cannot be read, and
    fills in the category's choices and samples. */
module SimpleFields {
  import opened Seqs
  import opened PyText
  import opened Snapshot
  import opened FormElements
  import opened Samples
  import opened SelectOptions
  import opened ControlData

  datatype Field = TextField | TextAreaField | SelectField | DateField | FileField

  /** The match lists of the field's selectors on the page. */
  function Matches(f: Field, page: Page): seq<seq<Control>> {
    match f
    case TextField => page.textInputs
    case TextAreaField => page.textAreas
    case SelectField => page.selects
    case DateField => page.dateInputs
    case FileField => page.fileInputs
  }

  const TextAreaSample: string := "This is sample text area content for testing purposes."
  const DefaultAccept: seq<string> := [".pdf", ".doc", ".docx"]
  const FileSample: string := "resume.pdf"

  /** A select-like control takes several values when it has a `multiple`
      attribute or its automation identifier mentions "multi" in any case. */
  predicate IsMultiple(c: Control) {
    "multiple" in c.attrs || Contains(Lower(AttrOr(c, "data-automation-id", "")), "multi")
  }

  /** The accepted file types: the `accept` attribute split at commas, or
      the default document types. */
  function AcceptList(c: Control): seq<string> {
    if Truthy(Attr(c, "accept")) then Split(c.attrs["accept"], ',') else DefaultAccept
  }

  /** The category a control matched for a field is entered as. */
  function KindFor(f: Field, c: Control): Category {
    match f
    case TextField => Text
    case TextAreaField => TextArea
    case SelectField => if IsMultiple(c) then MultiSelect else Select
    case DateField => Date
    case FileField => File
  }

  /** A control's data with the field's choices and samples filled in. */
  function Filled(f: Field, c: Control, d: FormElement): FormElement {
    match f
    case TextField => d.(samples := Some([SampleTextValue(d.labelText, Attr(c, "type"))]))
    case TextAreaField => d.(samples := Some([TextAreaSample]))
    case SelectField =>
      var o := Options(c);
      d.(options := Some(o),
         samples := if o == [] then None else Some(Take(o, if IsMultiple(c) then 2 else 1)))
    case DateField => d.(samples := Some([SampleDate(d.labelText)]))
    case FileField => d.(options := Some(AcceptList(c)), samples := Some([FileSample]))
  }

  /** The entry one control yields, if any. */
  function Entry(f: Field, c: Control, page: Page): Option<FormElement> {
    if !Usable(c) then None
    else match ElementData(c, page, KindFor(f, c))
      case None => None
      case Some(d) => Some(Filled(f, c, d))
  }

  /** What each control of a list yields, position by position. */
  function Entries(f: Field, cs: seq<Control>, page: Page): (r: seq<Option<FormElement>>)
    ensures |r| == |cs|
  {
    if cs == [] then [] else Entries(f, cs[..|cs| - 1], page) + [Entry(f, cs[|cs| - 1], page)]
  }

  lemma EntriesSnoc(f: Field, cs: seq<Control>, c: Control, page: Page)
    ensures Entries(f, cs + [c], page) == Entries(f, cs, page) + [Entry(f, c, page)]
  {
    assert (cs + [c])[..|cs|] == cs;
  }

  lemma {:induction false} EntriesAt(f: Field, cs: seq<Control>, page: Page, i: nat)
    requires i < |cs|
    ensures Entries(f, cs, page)[i] == Entry(f, cs[i], page)
  {
    if i < |cs| - 1 {
      EntriesAt(f, cs[..|cs| - 1], page, i);
    }
  }

  /** The entries of a list of controls, in order. */
  function Scan(f: Field, cs: seq<Control>, page: Page): seq<FormElement> {
    Somes(Entries(f, cs, page))
  }

  lemma ScanSnoc(f: Field, cs: seq<Control>, c: Control, page: Page)
    ensures Scan(f, cs + [c], page) ==
      Scan(f, cs, page) + (if Entry(f, c, page).Some? then [Entry(f, c, page).value] else [])
  {
    EntriesSnoc(f, cs, c, page);
    SomesSnoc(Entries(f, cs, page), Entry(f, c, page));
  }

  lemma {:induction false} EntriesConcat(f: Field, a: seq<Control>, b: seq<Control>, page: Page)
    ensures Entries(f, a + b, page) == Entries(f, a, page) + Entries(f, b, page)
    decreases |b|
  {
    if b == [] {
      assert a + b == a;
    } else {
      var b' := b[..|b| - 1];
      var c := b[|b| - 1];
      EntriesConcat(f, a, b', page);
      assert a + b == (a + b') + [c];
      assert b == b' + [c];
      EntriesSnoc(f, a + b', c, page);
      EntriesSnoc(f, b', c, page);
    }
  }

  lemma ScanConcat(f: Field, a: seq<Control>, b: seq<Control>, page: Page)
    ensures Scan(f, a + b, page) == Scan(f, a, page) + Scan(f, b, page)
  {
    EntriesConcat(f, a, b, page);
    SomesConcat(Entries(f, a, page), Entries(f, b, page));
  }

  /** The entries of the field's category on the page. */
  function FieldElements(f: Field, page: Page): seq<FormElement> {
    Scan(f, Flatten(Matches(f, page)), page)
  }

  // ---------------------------------------------------------------------
  // Properties of one entry

  /** A control yields an entry exactly when it is visible, enabled and its
      label lookup succeeds; the entry carries the control's identifier,
      label and required flag. */
  lemma EntryCommon(f: Field, c: Control, page: Page)
    ensures Entry(f, c, page).Some? <==> Usable(c) && Labels.FindLabel(c, page).Some?
    ensures Entry(f, c, page).Some? ==>
      var e := Entry(f, c, page).value;
      e.id == ElementId(c) && e.id != "" && e.labelText == Labels.FindLabel(c, page).value &&
      e.required == Required.IsRequired(c)
  {
  }

  /** A text input's sample is one of the fixed text samples, and it is the
      e-mail address exactly when the label or type says e-mail. */
  lemma TextEntry(c: Control, page: Page)
    requires Entry(TextField, c, page).Some?
    ensures var e := Entry(TextField, c, page).value;
      e.kind == Text && e.options.None? && e.samples.Some? && |e.samples.value| == 1 &&
      e.samples.value[0] in TextSamples &&
      (e.samples.value[0] == "test@example.com" <==> IsEmailField(e.labelText, Attr(c, "type")))
  {
  }

  /** A select-like control is a multi-select exactly when it has a
      `multiple` attribute or a "multi" automation identifier; its choices
      are its options; it gets samples only when it has options, and then
      the first one (single) or the first two (multi). */
  lemma SelectEntry(c: Control, page: Page)
    requires Entry(SelectField, c, page).Some?
    ensures var e := Entry(SelectField, c, page).value;
      (e.kind == MultiSelect <==> IsMultiple(c)) &&
      (e.kind == Select <==> !IsMultiple(c)) &&
      e.options == Some(Options(c)) &&
      (e.samples.None? <==> Options(c) == []) &&
      (e.samples.Some? ==>
         e.samples.value <= Options(c) &&
         |e.samples.value| == (if IsMultiple(c) && |Options(c)| >= 2 then 2 else 1))
  {
  }

  /** A date input's sample is an ISO calendar date chosen from its label. */
  lemma DateEntry(c: Control, page: Page)
    requires Entry(DateField, c, page).Some?
    ensures var e := Entry(DateField, c, page).value;
      e.kind == Date && e.samples == Some([SampleDate(e.labelText)]) &&
      IsIsoDate(e.samples.value[0])
  {
    SampleDateIsIso(Entry(DateField, c, page).value.labelText);
  }

  /** A file input's choices, joined back with commas, give its `accept`
      attribute when it has one; otherwise they are the document types. */
  lemma FileEntry(c: Control, page: Page)
    requires Entry(FileField, c, page).Some?
    ensures var e := Entry(FileField, c, page).value;
      e.kind == File && e.samples == Some([FileSample]) && e.options.Some? &&
      |e.options.value| >= 1 &&
      (Truthy(Attr(c, "accept")) ==> Join(e.options.value, ',') == c.attrs["accept"]) &&
      (!Truthy(Attr(c, "accept")) ==> e.options.value == DefaultAccept)
  {
    if Truthy(Attr(c, "accept")) {
      SplitJoin(c.attrs["accept"], ',');
    }
  }

  // ---------------------------------------------------------------------
  // Properties of the scan

  /** The scan keeps exactly the entries the controls yield, and drops
      nothing else. */
  lemma ScanMembers(f: Field, cs: seq<Control>, page: Page)
    ensures forall e :: e in Scan(f, cs, page) <==> Some(e) in Entries(f, cs, page)
    ensures |Scan(f, cs, page)| <= |cs|
  {
    SomesMembers(Entries(f, cs, page));
  }

  // ---------------------------------------------------------------------
  // The scraper's loop

  /** The body of each category's loop for one control: skip it when hidden
      or disabled or when its data cannot be read; otherwise fill in the
      category's choices and samples. */
  method ExtractOne(f: Field, c: Control, page: Page) returns (r: Option<FormElement>)
    ensures r == Entry(f, c, page)
  {
    if !Usable(c) {
      return None;
    }
    var kind := match f
      case TextField => Text
      case TextAreaField => TextArea
      case SelectField => if IsMultiple(c) then MultiSelect else Select
      case DateField => Date
      case FileField => File;
    var data := ElementData(c, page, kind);
    if data.None? {
      return None;
    }
    var e := data.value;
    match f {
      case TextField =>
        e := e.(samples := Some([SampleTextValue(e.labelText, Attr(c, "type"))]));
      case TextAreaField =>
        e := e.(samples := Some([TextAreaSample]));
      case SelectField =>
        var options := GetSelectOptions(c);
        e := e.(options := Some(options));
        if options != [] {
          var sampleCount := if IsMultiple(c) then 2 else 1;
          e := e.(samples := Some(Take(options, sampleCount)));
        }
      case DateField =>
        e := e.(samples := Some([SampleDate(e.labelText)]));
      case FileField =>
        var accept := Attr(c, "accept");
        e := e.(options := Some(if Truthy(accept) then Split(accept.value, ',') else DefaultAccept));
        e := e.(samples := Some([FileSample]));
    }
    r := Some(e);
  }

  /** One pass of the loop below: the control's entry, if any, is appended. */
  method ScanOne(f: Field, ghost before: seq<Control>, c: Control, page: Page, found0: seq<FormElement>)
    returns (found: seq<FormElement>)
    requires found0 == Scan(f, before, page)
    ensures found == Scan(f, before + [c], page)
  {
    ScanSnoc(f, before, c, page);
    var e := ExtractOne(f, c, page);
    found := found0;
    if e.Some? {
      found := found + [e.value];
    }
  }

  /** One selector's matches, in order. */
  method ScanMatches(f: Field, matches: seq<Control>, page: Page) returns (found: seq<FormElement>)
    ensures found == Scan(f, matches, page)
  {
    found := [];
    for j := 0 to |matches|
      invariant found == Scan(f, matches[..j], page)
    {
      assert matches[..j + 1] == matches[..j] + [matches[j]];
      found := ScanOne(f, matches[..j], matches[j], page, found);
    }
    assert matches[..|matches|] == matches;
  }

  /** `_extract_text_inputs`, `_extract_textareas`, `_extract_selects`,
      `_extract_date_inputs` and `_extract_file_inputs`: every selector,
      every match, in order. */
  method ExtractField(f: Field, page: Page) returns (elements: seq<FormElement>)
    ensures elements == FieldElements(f, page)
  {
    var selectors := Matches(f, page);
    elements := [];
    for s := 0 to |selectors|
      invariant elements == Scan(f, Flatten(selectors[..s]), page)
    {
      FlattenStep(selectors, s);
      var found := ScanMatches(f, selectors[s], page);
      ScanConcat(f, Flatten(selectors[..s]), selectors[s], page);
      elements := elements + found;
    }
    FlattenAll(selectors);
  }
}
