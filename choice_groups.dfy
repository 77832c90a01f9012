/** Checkboxes and radio buttons, which the scraper folds into groups. Both
    scans keep a set of processed group keys; a control whose group is
    already in it yields nothing. A checkbox with a `name` shared by several
    inputs becomes one entry listing the labels of the group; any other
    checkbox is a yes/no or checked/unchecked choice on its own. Radio
    buttons are grouped by `name` alone, and a radio without one is skipped. */
module ChoiceGroups {
  import opened Seqs
  import opened PyText
  import opened Snapshot
  import opened FormElements
  import opened Labels
  import opened ControlData

  /** What one control contributes: the entry it yields, the group it was
      taken as (`None` for a checkbox on its own), and the processed set
      afterwards. */
  datatype Step = Step(entry: Option<FormElement>, origin: Option<string>, processed: set<string>)

  /** The result of a scan: the entries, the group each was taken as, and
      the processed set. */
  datatype GroupScan = GroupScan(elements: seq<FormElement>, origins: seq<Option<string>>, processed: set<string>)

  function Extend(g: GroupScan, st: Step): GroupScan {
    if st.entry.Some? then GroupScan(g.elements + [st.entry.value], g.origins + [st.origin], st.processed)
    else GroupScan(g.elements, g.origins, st.processed)
  }

  /** A choice entry: it has choices, its sample is the first of them, and
      it has an identifier. */
  predicate IsChoice(e: FormElement, kind: Category) {
    e.kind == kind && e.id != "" && e.options.Some? && e.options.value != [] &&
    e.samples == Some([e.options.value[0]])
  }

  // ---------------------------------------------------------------------
  // Checkboxes

  const AffirmWords: seq<string> := ["yes", "no", "agree", "consent", "accept"]

  /** The group key: the `name`, or else the automation identifier. */
  function GroupKey(c: Control): Option<string> {
    if Truthy(Attr(c, "name")) then Attr(c, "name") else Attr(c, "data-automation-id")
  }

  /** The scraper's label lookup on `page`, as a function of the control. */
  function LabelOf(page: Page): Control -> Option<string> {
    (c: Control) => FindLabel(c, page)
  }

  /** The labels `label` finds for the visible members of a group, each
      once, in document order; a member without one is passed over. */
  function VisibleLabels(group: seq<Control>, labelOf: Control -> Option<string>): (r: seq<string>)
    ensures NoDup(r)
  {
    if group == [] then []
    else
      var acc := VisibleLabels(group[..|group| - 1], labelOf);
      var cb := group[|group| - 1];
      if cb.visible && labelOf(cb).Some? && labelOf(cb).value !in acc
      then acc + [labelOf(cb).value]
      else acc
  }

  /** Each entry of `VisibleLabels` is the label of a visible member. */
  lemma {:induction false} VisibleLabelsSound(group: seq<Control>, labelOf: Control -> Option<string>, x: string)
    returns (i: nat)
    requires x in VisibleLabels(group, labelOf)
    ensures i < |group| && group[i].visible && labelOf(group[i]) == Some(x)
  {
    var p := group[..|group| - 1];
    if x in VisibleLabels(p, labelOf) {
      i := VisibleLabelsSound(p, labelOf, x);
      assert group[i] == p[i];
    } else {
      i := |group| - 1;
    }
  }

  /** The label of every visible member is an entry of `VisibleLabels`. */
  lemma {:induction false} VisibleLabelsComplete(group: seq<Control>, labelOf: Control -> Option<string>, i: nat)
    requires i < |group| && group[i].visible && labelOf(group[i]).Some?
    ensures labelOf(group[i]).value in VisibleLabels(group, labelOf)
  {
    var p := group[..|group| - 1];
    if i < |p| {
      assert group[i] == p[i];
      VisibleLabelsComplete(p, labelOf, i);
    }
  }

  /** When every member is visible and labelled, and no two labels
      coincide, there is one entry per member, in order. */
  lemma {:induction false} VisibleLabelsAll(group: seq<Control>, labelOf: Control -> Option<string>)
    requires forall i :: 0 <= i < |group| ==> group[i].visible && labelOf(group[i]).Some?
    requires forall i, j :: 0 <= i < j < |group| ==> labelOf(group[i]) != labelOf(group[j])
    ensures |VisibleLabels(group, labelOf)| == |group|
    ensures forall i :: 0 <= i < |group| ==> VisibleLabels(group, labelOf)[i] == labelOf(group[i]).value
  {
    if group != [] {
      var p := group[..|group| - 1];
      var cb := group[|group| - 1];
      assert forall i :: 0 <= i < |p| ==> p[i] == group[i];
      VisibleLabelsAll(p, labelOf);
      var acc := VisibleLabels(p, labelOf);
      forall k | 0 <= k < |acc| ensures acc[k] != labelOf(cb).value {
        assert acc[k] == labelOf(group[k]).value;
      }
    }
  }

  /** No entry of `VisibleLabels` is empty when `label` never finds an
      empty text. */
  lemma {:induction false} VisibleLabelsNonEmpty(group: seq<Control>, labelOf: Control -> Option<string>)
    requires forall c :: labelOf(c).Some? ==> labelOf(c).value != ""
    ensures forall x :: x in VisibleLabels(group, labelOf) ==> x != ""
  {
    if group != [] {
      VisibleLabelsNonEmpty(group[..|group| - 1], labelOf);
    }
  }

  /** The labels of the visible members of a checkbox group, each once, in
      document order; a member whose label lookup fails is passed over. */
  function GroupLabels(group: seq<Control>, page: Page): (r: seq<string>)
    ensures NoDup(r)
    ensures forall x :: x in r ==> x != ""
  {
    VisibleLabelsNonEmpty(group, LabelOf(page));
    VisibleLabels(group, LabelOf(page))
  }

  /** A text is among a checkbox group's options exactly when a visible
      member of the group has it as its labelOf. */
  lemma GroupLabelsMembers(group: seq<Control>, page: Page, x: string)
    ensures x in GroupLabels(group, page) <==>
      exists i :: 0 <= i < |group| && group[i].visible && FindLabel(group[i], page) == Some(x)
  {
    if x in GroupLabels(group, page) {
      var i := VisibleLabelsSound(group, LabelOf(page), x);
      assert FindLabel(group[i], page) == LabelOf(page)(group[i]);
    }
    forall i | 0 <= i < |group| && group[i].visible && FindLabel(group[i], page) == Some(x)
      ensures x in GroupLabels(group, page)
    {
      assert FindLabel(group[i], page) == LabelOf(page)(group[i]);
      VisibleLabelsComplete(group, LabelOf(page), i);
    }
  }

  /** When every member of a group is visible and labelled, and no two
      share a labelOf, the options are the members' labels, one per member,
      in order. */
  lemma GroupLabelsAll(group: seq<Control>, page: Page)
    requires forall i :: 0 <= i < |group| ==> group[i].visible && FindLabel(group[i], page).Some?
    requires forall i, j :: 0 <= i < j < |group| ==> FindLabel(group[i], page) != FindLabel(group[j], page)
    ensures |GroupLabels(group, page)| == |group|
    ensures forall i :: 0 <= i < |group| ==> GroupLabels(group, page)[i] == FindLabel(group[i], page).value
  {
    assert forall c :: LabelOf(page)(c) == FindLabel(c, page);
    VisibleLabelsAll(group, LabelOf(page));
  }

  /** A checkbox on its own: a yes/no choice when its label reads like a
      question to agree to, else checked/unchecked. */
  function SingleCheckbox(d: FormElement): (e: FormElement)
    ensures IsChoice(e, d.kind) || d.id == ""
    ensures e.options == Some(["Yes", "No"]) <==> ContainsAny(Lower(d.labelText), AffirmWords)
    ensures e.options == Some(["Checked", "Unchecked"]) <==> !ContainsAny(Lower(d.labelText), AffirmWords)
  {
    if ContainsAny(Lower(d.labelText), AffirmWords)
    then d.(options := Some(["Yes", "No"]), samples := Some(["Yes"]))
    else d.(options := Some(["Checked", "Unchecked"]), samples := Some(["Checked"]))
  }

  /** One pass of the checkbox loop. */
  function CheckboxStep(c: Control, page: Page, processed: set<string>): Step {
    if !Usable(c) then Step(None, None, processed)
    else
      var key := GroupKey(c);
      if Truthy(key) && key.value in processed then Step(None, None, processed)
      else match ElementData(c, page, Checkbox)
        case None => Step(None, None, processed)
        case Some(d) =>
          var name := Attr(c, "name");
          var opts := if Truthy(name) && |Named(page, name.value)| > 1
                      then GroupLabels(Named(page, name.value), page) else [];
          if opts != [] then
            Step(Some(d.(options := Some(opts), samples := Some([opts[0]]))), Some(name.value),
                 processed + {name.value})
          else Step(Some(SingleCheckbox(d)), None, processed)
  }

  function CheckboxScan(cs: seq<Control>, page: Page): GroupScan {
    if cs == [] then GroupScan([], [], {})
    else
      var g := CheckboxScan(cs[..|cs| - 1], page);
      Extend(g, CheckboxStep(cs[|cs| - 1], page, g.processed))
  }

  /** `_extract_checkboxes` */
  function CheckboxElements(page: Page): seq<FormElement> {
    CheckboxScan(Flatten(page.checkboxes), page).elements
  }

  /** A checkbox whose group key was already processed yields nothing and
      leaves the set as it was. */
  lemma CheckboxSkipsProcessed(c: Control, page: Page, processed: set<string>)
    requires Truthy(GroupKey(c)) && GroupKey(c).value in processed
    ensures CheckboxStep(c, page, processed) == Step(None, None, processed)
  {
  }

  /** What a checkbox yields: a group entry listing the labels of the group
      (and its name is then processed), or an entry on its own (and the set
      is unchanged); either way a choice whose sample is its first option. */
  lemma CheckboxStepEntry(c: Control, page: Page, processed: set<string>)
    ensures var st := CheckboxStep(c, page, processed);
      st.entry.None? ==> st.origin.None? && st.processed == processed
    ensures var st := CheckboxStep(c, page, processed);
      st.entry.Some? <==>
        Usable(c) && FindLabel(c, page).Some? && !(Truthy(GroupKey(c)) && GroupKey(c).value in processed)
    ensures var st := CheckboxStep(c, page, processed);
      st.entry.Some? ==> IsChoice(st.entry.value, Checkbox) && st.entry.value.id == ElementId(c)
    ensures var st := CheckboxStep(c, page, processed);
      st.entry.Some? && st.origin.Some? ==>
        var k := st.origin.value;
        GroupKey(c) == Some(k) && k !in processed && st.processed == processed + {k} &&
        |Named(page, k)| > 1 && st.entry.value.options == Some(GroupLabels(Named(page, k), page))
    ensures var st := CheckboxStep(c, page, processed);
      st.entry.Some? && st.origin.None? ==>
        st.processed == processed &&
        (st.entry.value.options == Some(["Yes", "No"]) <==>
           ContainsAny(Lower(st.entry.value.labelText), AffirmWords)) &&
        (st.entry.value.options == Some(["Checked", "Unchecked"]) <==>
           !ContainsAny(Lower(st.entry.value.labelText), AffirmWords))
  {
  }

  /** The keys of the groups taken so far. */
  function GroupsOf(origins: seq<Option<string>>): set<string> {
    set o | o in origins && o.Some? :: o.value
  }

  /** No group is taken twice. */
  ghost predicate GroupsOnce(origins: seq<Option<string>>) {
    forall i, j :: 0 <= i < j < |origins| && origins[i].Some? ==> origins[i] != origins[j]
  }

  lemma GroupsOfSnoc(origins: seq<Option<string>>, o: Option<string>)
    ensures GroupsOf(origins + [o]) == GroupsOf(origins) + (if o.Some? then {o.value} else {})
  {
    assert forall x :: x in origins + [o] <==> x in origins || x == o;
  }

  /** Across a whole scan: every entry is a checkbox choice, the processed
      set is exactly the groups taken, and no group is taken twice. */
  lemma {:induction false} CheckboxScanShape(cs: seq<Control>, page: Page)
    ensures var g := CheckboxScan(cs, page);
      |g.origins| == |g.elements| &&
      g.processed == GroupsOf(g.origins) &&
      GroupsOnce(g.origins) &&
      forall k :: 0 <= k < |g.elements| ==> IsChoice(g.elements[k], Checkbox)
  {
    if cs != [] {
      var p := cs[..|cs| - 1];
      CheckboxScanShape(p, page);
      var g := CheckboxScan(p, page);
      var c := cs[|cs| - 1];
      var st := CheckboxStep(c, page, g.processed);
      CheckboxStepEntry(c, page, g.processed);
      if st.entry.Some? {
        GroupsOfSnoc(g.origins, st.origin);
        var os := g.origins + [st.origin];
        forall i, j | 0 <= i < j < |os| && os[i].Some? ensures os[i] != os[j] {
          if j == |g.origins| {
            assert os[i] == g.origins[i] && g.origins[i] in g.origins;
            assert os[i].value in g.processed;
          } else {
            assert os[i] == g.origins[i] && os[j] == g.origins[j];
          }
        }
      }
    }
  }

  // ---------------------------------------------------------------------
  // Radio buttons

  const DefaultRadioOptions: seq<string> := ["Option 1", "Option 2"]

  /** For each visible member, its `value` when that is non-empty and new,
      otherwise the text `label` finds for it when that is found and new. */
  function ValueOrLabel(group: seq<Control>, labelOf: Control -> Option<string>): (r: seq<string>)
    ensures NoDup(r)
  {
    if group == [] then []
    else
      var acc := ValueOrLabel(group[..|group| - 1], labelOf);
      var rb := group[|group| - 1];
      var value := Attr(rb, "value");
      if !rb.visible then acc
      else if Truthy(value) && value.value !in acc then acc + [value.value]
      else if labelOf(rb).Some? && labelOf(rb).value !in acc then acc + [labelOf(rb).value]
      else acc
  }

  /** Each entry of `ValueOrLabel` is the value or the label of a visible
      member. */
  lemma {:induction false} ValueOrLabelSound(group: seq<Control>, labelOf: Control -> Option<string>, x: string)
    returns (i: nat)
    requires x in ValueOrLabel(group, labelOf)
    ensures i < |group| && group[i].visible && (Attr(group[i], "value") == Some(x) || labelOf(group[i]) == Some(x))
  {
    var p := group[..|group| - 1];
    if x in ValueOrLabel(p, labelOf) {
      i := ValueOrLabelSound(p, labelOf, x);
      assert group[i] == p[i];
    } else {
      i := |group| - 1;
    }
  }

  /** Entries of `ValueOrLabel` are kept as members are added. */
  lemma {:induction false} ValueOrLabelGrow(group: seq<Control>, labelOf: Control -> Option<string>, n: nat)
    requires n <= |group|
    ensures forall x :: x in ValueOrLabel(group[..n], labelOf) ==> x in ValueOrLabel(group, labelOf)
    decreases |group| - n
  {
    if n < |group| {
      var q := group[..n + 1];
      ValueOrLabelGrow(group, labelOf, n + 1);
      assert q[..|q| - 1] == group[..n];
    } else {
      assert group[..n] == group;
    }
  }

  /** The value of every visible member, or its label when it has no
      value, is an entry of `ValueOrLabel`. */
  lemma {:induction false} ValueOrLabelComplete(group: seq<Control>, labelOf: Control -> Option<string>, i: nat)
    requires i < |group| && group[i].visible
    ensures Truthy(Attr(group[i], "value")) ==> Attr(group[i], "value").value in ValueOrLabel(group, labelOf)
    ensures !Truthy(Attr(group[i], "value")) && labelOf(group[i]).Some? ==>
      labelOf(group[i]).value in ValueOrLabel(group, labelOf)
  {
    var q := group[..i + 1];
    ValueOrLabelGrow(group, labelOf, i + 1);
    assert q[|q| - 1] == group[i];
  }

  /** No entry of `ValueOrLabel` is empty when `label` never finds an empty
      text. */
  lemma {:induction false} ValueOrLabelNonEmpty(group: seq<Control>, labelOf: Control -> Option<string>)
    requires forall c :: labelOf(c).Some? ==> labelOf(c).value != ""
    ensures forall x :: x in ValueOrLabel(group, labelOf) ==> x != ""
  {
    if group != [] {
      ValueOrLabelNonEmpty(group[..|group| - 1], labelOf);
    }
  }

  /** The choices of a radio group: for each visible member, its `value`
      when that is non-empty and new, otherwise its label when that is
      found and new. */
  function RadioOptions(group: seq<Control>, page: Page): (r: seq<string>)
    ensures NoDup(r)
    ensures forall x :: x in r ==> x != ""
  {
    ValueOrLabelNonEmpty(group, LabelOf(page));
    ValueOrLabel(group, LabelOf(page))
  }

  /** A visible radio offers its `value`, or else its labelOf. */
  ghost predicate Offers(rb: Control, page: Page, x: string) {
    rb.visible && (Attr(rb, "value") == Some(x) || FindLabel(rb, page) == Some(x))
  }

  /** The options of a radio group: every visible member's non-empty
      `value` is one, every visible member without one contributes its
      label when found, and every option is the value or the label of a
      visible member. */
  lemma RadioOptionsMembers(group: seq<Control>, page: Page)
    ensures var r := RadioOptions(group, page);
      forall i :: 0 <= i < |group| && group[i].visible && Truthy(Attr(group[i], "value")) ==>
        Attr(group[i], "value").value in r
    ensures var r := RadioOptions(group, page);
      forall i :: 0 <= i < |group| && group[i].visible && !Truthy(Attr(group[i], "value")) &&
                  FindLabel(group[i], page).Some? ==>
        FindLabel(group[i], page).value in r
    ensures var r := RadioOptions(group, page);
      forall x :: x in r ==> exists i :: 0 <= i < |group| && Offers(group[i], page, x)
  {
    var r := RadioOptions(group, page);
    forall i | 0 <= i < |group| && group[i].visible
      ensures Truthy(Attr(group[i], "value")) ==> Attr(group[i], "value").value in r
      ensures !Truthy(Attr(group[i], "value")) && FindLabel(group[i], page).Some? ==>
        FindLabel(group[i], page).value in r
    {
      assert FindLabel(group[i], page) == LabelOf(page)(group[i]);
      ValueOrLabelComplete(group, LabelOf(page), i);
    }
    forall x | x in RadioOptions(group, page) ensures exists i :: 0 <= i < |group| && Offers(group[i], page, x) {
      var i := ValueOrLabelSound(group, LabelOf(page), x);
      assert FindLabel(group[i], page) == LabelOf(page)(group[i]);
    }
  }

  /** One pass of the radio loop. The name is marked processed before the
      entry is built, so a radio whose label lookup fails still closes its
      group. */
  function RadioStep(c: Control, page: Page, processed: set<string>): Step {
    if !Usable(c) then Step(None, None, processed)
    else
      var name := Attr(c, "name");
      if !Truthy(name) || name.value in processed then Step(None, None, processed)
      else
        var processed' := processed + {name.value};
        var found := RadioOptions(Named(page, name.value), page);
        match ElementData(c, page, Radio)
        case None => Step(None, None, processed')
        case Some(d) =>
          var opts := if found != [] then found else DefaultRadioOptions;
          Step(Some(d.(options := Some(opts), samples := Some([opts[0]]))), name, processed')
  }

  function RadioScan(cs: seq<Control>, page: Page): GroupScan {
    if cs == [] then GroupScan([], [], {})
    else
      var g := RadioScan(cs[..|cs| - 1], page);
      Extend(g, RadioStep(cs[|cs| - 1], page, g.processed))
  }

  /** `_extract_radios` */
  function RadioElements(page: Page): seq<FormElement> {
    RadioScan(Flatten(page.radios), page).elements
  }

  /** The names of the visible, enabled radios that have one. */
  function NamedRadios(cs: seq<Control>): set<string> {
    if cs == [] then {}
    else
      var c := cs[|cs| - 1];
      NamedRadios(cs[..|cs| - 1]) +
        (if Usable(c) && Truthy(Attr(c, "name")) then {c.attrs["name"]} else {})
  }

  /** What a radio yields: nothing without a name or with a processed one;
      otherwise its name becomes processed, and any entry is a choice
      without repeated options, defaulting to two placeholder options. */
  lemma RadioStepEntry(c: Control, page: Page, processed: set<string>)
    ensures var st := RadioStep(c, page, processed);
      (!Truthy(Attr(c, "name")) || c.attrs["name"] in processed) ==> st == Step(None, None, processed)
    ensures var st := RadioStep(c, page, processed);
      st.processed == processed + (if Usable(c) && Truthy(Attr(c, "name")) then {c.attrs["name"]} else {})
    ensures var st := RadioStep(c, page, processed);
      st.entry.Some? ==>
        st.origin == Attr(c, "name") && Truthy(st.origin) && st.origin.value !in processed &&
        IsChoice(st.entry.value, Radio) && NoDup(st.entry.value.options.value) &&
        st.entry.value.id == ElementId(c) &&
        (RadioOptions(Named(page, st.origin.value), page) == [] ==>
           st.entry.value.options == Some(DefaultRadioOptions))
    ensures var st := RadioStep(c, page, processed);
      st.entry.None? ==> st.origin.None?
  {
  }

  /** Across a whole scan: at most one entry per radio name, every entry
      taken as a named group, and the processed set is exactly the names of
      the usable radios seen. */
  lemma {:induction false} RadioScanShape(cs: seq<Control>, page: Page)
    ensures var g := RadioScan(cs, page);
      |g.origins| == |g.elements| &&
      NoDup(g.origins) &&
      (forall k :: 0 <= k < |g.origins| ==> g.origins[k].Some? && g.origins[k].value in g.processed) &&
      g.processed == NamedRadios(cs) &&
      forall k :: 0 <= k < |g.elements| ==> IsChoice(g.elements[k], Radio)
  {
    if cs != [] {
      var p := cs[..|cs| - 1];
      RadioScanShape(p, page);
      var g := RadioScan(p, page);
      var c := cs[|cs| - 1];
      var st := RadioStep(c, page, g.processed);
      RadioStepEntry(c, page, g.processed);
      if st.entry.Some? {
        var os := g.origins + [st.origin];
        forall i, j | 0 <= i < j < |os| ensures os[i] != os[j] {
          if j == |g.origins| {
            assert os[i] == g.origins[i];
          } else {
            assert os[i] == g.origins[i] && os[j] == g.origins[j];
          }
        }
      }
    }
  }

  // ---------------------------------------------------------------------
  // The scraper's loops

  method CheckboxOne(c: Control, page: Page, processed: set<string>) returns (st: Step)
    ensures st == CheckboxStep(c, page, processed)
  {
    if !Usable(c) {
      return Step(None, None, processed);
    }
    var name := Attr(c, "name");
    var groupKey := if Truthy(name) then name else Attr(c, "data-automation-id");
    if Truthy(groupKey) && groupKey.value in processed {
      return Step(None, None, processed);
    }
    var data := ElementData(c, page, Checkbox);
    if data.None? {
      return Step(None, None, processed);
    }
    var e := data.value;
    if Truthy(name) {
      var groupCheckboxes := Named(page, name.value);
      if |groupCheckboxes| > 1 {
        var options: seq<string> := [];
        for i := 0 to |groupCheckboxes|
          invariant options == GroupLabels(groupCheckboxes[..i], page)
        {
          assert groupCheckboxes[..i + 1][..i] == groupCheckboxes[..i];
          var cb := groupCheckboxes[i];
          if cb.visible {
            var cbLabel := FindLabel(cb, page);
            if cbLabel.Some? && cbLabel.value !in options {
              options := options + [cbLabel.value];
            }
          }
        }
        assert groupCheckboxes[..|groupCheckboxes|] == groupCheckboxes;
        if options != [] {
          e := e.(options := Some(options), samples := Some([options[0]]));
          return Step(Some(e), name, processed + {name.value});
        }
      }
    }
    if ContainsAny(Lower(e.labelText), AffirmWords) {
      e := e.(options := Some(["Yes", "No"]), samples := Some(["Yes"]));
    } else {
      e := e.(options := Some(["Checked", "Unchecked"]), samples := Some(["Checked"]));
    }
    st := Step(Some(e), None, processed);
  }

  method RadioOne(c: Control, page: Page, processed: set<string>) returns (st: Step)
    ensures st == RadioStep(c, page, processed)
  {
    if !Usable(c) {
      return Step(None, None, processed);
    }
    var name := Attr(c, "name");
    if !Truthy(name) || name.value in processed {
      return Step(None, None, processed);
    }
    var processedGroups := processed + {name.value};
    var groupRadios := Named(page, name.value);
    var options: seq<string> := [];
    for i := 0 to |groupRadios|
      invariant options == RadioOptions(groupRadios[..i], page)
    {
      assert groupRadios[..i + 1][..i] == groupRadios[..i];
      var r := groupRadios[i];
      if r.visible {
        var value := Attr(r, "value");
        if Truthy(value) && value.value !in options {
          options := options + [value.value];
        } else {
          var labelText := FindLabel(r, page);
          if labelText.Some? && labelText.value !in options {
            options := options + [labelText.value];
          }
        }
      }
    }
    assert groupRadios[..|groupRadios|] == groupRadios;
    var data := ElementData(c, page, Radio);
    if data.None? {
      return Step(None, None, processedGroups);
    }
    var opts := if options != [] then options else DefaultRadioOptions;
    st := Step(Some(data.value.(options := Some(opts), samples := Some([opts[0]]))), name, processedGroups);
  }

  /** The scan of one more control, given what its pass of the loop
      returned. */
  lemma CheckboxAdvance(cs: seq<Control>, c: Control, page: Page, st: Step)
    requires st == CheckboxStep(c, page, CheckboxScan(cs, page).processed)
    ensures CheckboxScan(cs + [c], page).elements ==
      CheckboxScan(cs, page).elements + (if st.entry.Some? then [st.entry.value] else [])
    ensures CheckboxScan(cs + [c], page).processed == st.processed
  {
    assert (cs + [c])[..|cs|] == cs;
  }

  /** The scan of one more control, given what its pass of the loop
      returned. */
  lemma RadioAdvance(cs: seq<Control>, c: Control, page: Page, st: Step)
    requires st == RadioStep(c, page, RadioScan(cs, page).processed)
    ensures RadioScan(cs + [c], page).elements ==
      RadioScan(cs, page).elements + (if st.entry.Some? then [st.entry.value] else [])
    ensures RadioScan(cs + [c], page).processed == st.processed
  {
    assert (cs + [c])[..|cs|] == cs;
  }

  /** The checkboxes one selector matched, continuing the scan of the
      controls `done` that earlier selectors matched. */
  method CheckboxMatches(checkboxes: seq<Control>, page: Page, ghost done: seq<Control>,
                         elements0: seq<FormElement>, processed0: set<string>)
    returns (elements: seq<FormElement>, processedGroups: set<string>)
    requires elements0 == CheckboxScan(done, page).elements
    requires processed0 == CheckboxScan(done, page).processed
    ensures elements == CheckboxScan(done + checkboxes, page).elements
    ensures processedGroups == CheckboxScan(done + checkboxes, page).processed
  {
    elements, processedGroups := elements0, processed0;
    assert done + checkboxes[..0] == done;
    for j := 0 to |checkboxes|
      invariant elements == CheckboxScan(done + checkboxes[..j], page).elements
      invariant processedGroups == CheckboxScan(done + checkboxes[..j], page).processed
    {
      PrefixSnoc(done, checkboxes, j);
      var st := CheckboxOne(checkboxes[j], page, processedGroups);
      CheckboxAdvance(done + checkboxes[..j], checkboxes[j], page, st);
      if st.entry.Some? {
        elements := elements + [st.entry.value];
      }
      processedGroups := st.processed;
    }
    assert checkboxes[..|checkboxes|] == checkboxes;
  }

  /** `_extract_checkboxes`: one `processed_groups` set across all
      selectors. */
  method ExtractCheckboxes(page: Page) returns (elements: seq<FormElement>)
    ensures elements == CheckboxElements(page)
  {
    var selectors := page.checkboxes;
    elements := [];
    var processedGroups: set<string> := {};
    for s := 0 to |selectors|
      invariant elements == CheckboxScan(Flatten(selectors[..s]), page).elements
      invariant processedGroups == CheckboxScan(Flatten(selectors[..s]), page).processed
    {
      FlattenStep(selectors, s);
      elements, processedGroups :=
        CheckboxMatches(selectors[s], page, Flatten(selectors[..s]), elements, processedGroups);
    }
    FlattenAll(selectors);
  }

  /** The radios one selector matched, continuing the scan of the controls
      `done` that earlier selectors matched. */
  method RadioMatches(radios: seq<Control>, page: Page, ghost done: seq<Control>,
                      elements0: seq<FormElement>, processed0: set<string>)
    returns (elements: seq<FormElement>, processedGroups: set<string>)
    requires elements0 == RadioScan(done, page).elements
    requires processed0 == RadioScan(done, page).processed
    ensures elements == RadioScan(done + radios, page).elements
    ensures processedGroups == RadioScan(done + radios, page).processed
  {
    elements, processedGroups := elements0, processed0;
    assert done + radios[..0] == done;
    for j := 0 to |radios|
      invariant elements == RadioScan(done + radios[..j], page).elements
      invariant processedGroups == RadioScan(done + radios[..j], page).processed
    {
      PrefixSnoc(done, radios, j);
      var st := RadioOne(radios[j], page, processedGroups);
      RadioAdvance(done + radios[..j], radios[j], page, st);
      if st.entry.Some? {
        elements := elements + [st.entry.value];
      }
      processedGroups := st.processed;
    }
    assert radios[..|radios|] == radios;
  }

  /** `_extract_radios`: one `processed_groups` set across all selectors. */
  method ExtractRadios(page: Page) returns (elements: seq<FormElement>)
    ensures elements == RadioElements(page)
  {
    var selectors := page.radios;
    elements := [];
    var processedGroups: set<string> := {};
    for s := 0 to |selectors|
      invariant elements == RadioScan(Flatten(selectors[..s]), page).elements
      invariant processedGroups == RadioScan(Flatten(selectors[..s]), page).processed
    {
      FlattenStep(selectors, s);
      elements, processedGroups :=
        RadioMatches(selectors[s], page, Flatten(selectors[..s]), elements, processedGroups);
    }
    FlattenAll(selectors);
  }
}
