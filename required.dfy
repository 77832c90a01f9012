/** Whether a control is required: a chain of probes on the control and its
    parent, any one of which settles the answer as "required". */
module Required {
  import opened Seqs
  import opened PyText
  import opened Snapshot

  function ClassOf(attrs: map<string, string>): string {
    if "class" in attrs then attrs["class"] else ""
  }

  /** The probes on the parent: a required-marker element inside it, an
      asterisk or the word "required" in its markup, or "required" in its
      class. */
  predicate ParentSaysRequired(parent: Ancestor) {
    parent.hasRequiredMarker ||
    (parent.html != "" && (Contains(parent.html, "*") || Contains(Lower(parent.html), "required"))) ||
    Contains(Lower(ClassOf(parent.attrs)), "required")
  }

  /** `_is_element_required` */
  function IsRequired(c: Control): (r: bool)
    ensures "required" in c.attrs ==> r
    ensures Attr(c, "aria-required") == Some("true") ==> r
    ensures Contains(Lower(ClassOf(c.attrs)), "required") ==> r
    ensures c.ancestors != [] && ParentSaysRequired(c.ancestors[0]) ==> r
    ensures r ==>
      ("required" in c.attrs || Attr(c, "aria-required") == Some("true") ||
       Contains(Lower(ClassOf(c.attrs)), "required") ||
       (c.ancestors != [] && ParentSaysRequired(c.ancestors[0])))
  {
    if "required" in c.attrs then true
    else if Attr(c, "aria-required") == Some("true") then true
    else if Contains(Lower(ClassOf(c.attrs)), "required") then true
    else if c.ancestors == [] then false
    else
      var parent := c.ancestors[0];
      if parent.hasRequiredMarker then true
      else if parent.html != "" && (Contains(parent.html, "*") || Contains(Lower(parent.html), "required")) then true
      else Contains(Lower(ClassOf(parent.attrs)), "required")
  }
}
