/** The catalogue of one page: the seven categories in a fixed order (text
    inputs, text areas, select-like controls, checkboxes, radio buttons,
    date inputs, file inputs), then one entry per identifier, the first one
    met winning. */
module PageExtraction {
  import opened Seqs
  import opened Snapshot
  import opened FormElements
  import opened SimpleFields
  import opened ChoiceGroups

  /** The categories an entry of a one-at-a-time field may have. */
  predicate KindOf(f: Field, k: Category) {
    match f
    case TextField => k == Text
    case TextAreaField => k == TextArea
    case SelectField => k == Select || k == MultiSelect
    case DateField => k == Date
    case FileField => k == File
  }

  /** Every entry of the page in category order, before deduplication. */
  function Collected(page: Page): seq<FormElement> {
    FieldElements(TextField, page) + FieldElements(TextAreaField, page) + FieldElements(SelectField, page) +
    CheckboxElements(page) + RadioElements(page) +
    FieldElements(DateField, page) + FieldElements(FileField, page)
  }

  /** `extract_form_elements` */
  function PageElements(page: Page): seq<FormElement> {
    Dedup(Collected(page))
  }

  /** Every entry a one-at-a-time field yields has an identifier and its
      field's category. */
  lemma FieldElementsShape(f: Field, page: Page)
    ensures forall e :: e in FieldElements(f, page) ==> e.id != "" && KindOf(f, e.kind)
  {
    var cs := Flatten(Matches(f, page));
    ScanMembers(f, cs, page);
    forall e | e in FieldElements(f, page) ensures e.id != "" && KindOf(f, e.kind) {
      var es := Entries(f, cs, page);
      var i :| 0 <= i < |es| && es[i] == Some(e);
      EntriesAt(f, cs, page, i);
      EntryCommon(f, cs[i], page);
    }
  }

  /** Every checkbox entry is a checkbox choice, every radio entry a radio
      choice. */
  lemma ChoiceElementsShape(page: Page)
    ensures forall e :: e in CheckboxElements(page) ==> IsChoice(e, Checkbox)
    ensures forall e :: e in RadioElements(page) ==> IsChoice(e, Radio)
  {
    CheckboxScanShape(Flatten(page.checkboxes), page);
    RadioScanShape(Flatten(page.radios), page);
    var checks := CheckboxElements(page);
    var radios := RadioElements(page);
    forall e | e in checks ensures IsChoice(e, Checkbox) {
      var k :| 0 <= k < |checks| && checks[k] == e;
    }
    forall e | e in radios ensures IsChoice(e, Radio) {
      var k :| 0 <= k < |radios| && radios[k] == e;
    }
  }

  /** Every entry of the page has an identifier. */
  lemma CollectedIds(page: Page)
    ensures forall e :: e in Collected(page) ==> e.id != ""
  {
    FieldElementsShape(TextField, page);
    FieldElementsShape(TextAreaField, page);
    FieldElementsShape(SelectField, page);
    FieldElementsShape(DateField, page);
    FieldElementsShape(FileField, page);
    ChoiceElementsShape(page);
  }

  /** The page's catalogue has no two entries with one identifier, loses no
      identifier of the collected entries, keeps their order, keeps the
      first entry for each identifier, and has no empty identifier. */
  lemma PageElementsSpec(page: Page)
    ensures DistinctIds(PageElements(page))
    ensures Ids(PageElements(page)) == Ids(Collected(page))
    ensures IsSubseq(PageElements(page), Collected(page))
    ensures forall e :: e in PageElements(page) ==> e.id != ""
    ensures var r := PageElements(page);
      forall k :: 0 <= k < |r| ==>
        r[k].id in Ids(Collected(page)) && r[k] == Collected(page)[FirstIndex(Collected(page), r[k].id)]
  {
    var all := Collected(page);
    DedupDistinct(all);
    DedupIds(all);
    DedupSubseq(all);
    DedupFirstWins(all);
    SubseqMembers(PageElements(page), all);
    CollectedIds(page);
  }

  /** `extract_form_elements`: the seven extractors in order, then the
      identifier-based deduplication. */
  method ExtractFormElements(page: Page) returns (unique: seq<FormElement>)
    ensures unique == PageElements(page)
  {
    var textInputs := ExtractField(TextField, page);
    var textAreas := ExtractField(TextAreaField, page);
    var selects := ExtractField(SelectField, page);
    var checkboxes := ExtractCheckboxes(page);
    var radios := ExtractRadios(page);
    var dates := ExtractField(DateField, page);
    var files := ExtractField(FileField, page);
    var elements := textInputs + textAreas + selects + checkboxes + radios + dates + files;
    unique := RemoveDuplicateIds(elements);
  }
}
