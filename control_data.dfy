/** The data every catalogue entry starts from: the control's identifier,
    its label and whether it is required. */
module ControlData {
  import opened Seqs
  import opened Snapshot
  import opened FormElements
  import opened Labels
  import opened Required

  /** The identifier: the automation identifier, else the `id`, else the
      `name`, else `element_` followed by an opaque token standing for the
      hash of the element handle. The first non-empty one wins. */
  function ElementId(c: Control): (r: string)
    ensures r != ""
    ensures Truthy(Attr(c, "data-automation-id")) ==> r == c.attrs["data-automation-id"]
    ensures !Truthy(Attr(c, "data-automation-id")) && Truthy(Attr(c, "id")) ==> r == c.attrs["id"]
    ensures (!Truthy(Attr(c, "data-automation-id")) && !Truthy(Attr(c, "id")) && Truthy(Attr(c, "name")))
              ==> r == c.attrs["name"]
    ensures (!Truthy(Attr(c, "data-automation-id")) && !Truthy(Attr(c, "id")) && !Truthy(Attr(c, "name")))
              ==> r == "element_" + c.token
  {
    if Truthy(Attr(c, "data-automation-id")) then c.attrs["data-automation-id"]
    else if Truthy(Attr(c, "id")) then c.attrs["id"]
    else if Truthy(Attr(c, "name")) then c.attrs["name"]
    else "element_" + c.token
  }

  /** `_get_element_data`: an entry with no choices and no samples yet, or
      `None` when the label lookup fails. */
  function ElementData(c: Control, page: Page, kind: Category): (r: Option<FormElement>)
    ensures r.Some? <==> FindLabel(c, page).Some?
    ensures r.Some? ==>
      r.value.labelText == FindLabel(c, page).value && r.value.labelText != "" &&
      r.value.id == ElementId(c) && r.value.required == IsRequired(c) && r.value.kind == kind &&
      r.value.options.None? && r.value.samples.None?
  {
    match FindLabel(c, page)
    case None => None
    case Some(l) => Some(FormElement(l, ElementId(c), IsRequired(c), kind, None, None))
  }
}
