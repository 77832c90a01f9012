/** A fixed snapshot of the rendered page that the mapper probes. Every
    browser query the scraper makes is answered from this value: the match
    list of each selector in the order the browser returns it, a control's
    attributes (absent ones are missing from the map, as `get_attribute`
    returns `None`), its visibility and enabled state, its rendered text and
    the chain of its ancestors. */
module Snapshot {
  import opened Seqs

  /** An element that a probe found: whether it is visible and its text. */
  datatype Probe = Probe(visible: bool, text: string)

  /** An `<option>` of a native choice control: its rendered text and its
      `value` attribute. */
  datatype NativeOption = NativeOption(text: string, value: Option<string>)

  /** What a script-driven dropdown shows once it is clicked: whether the
      click succeeds, the matches of each popup-option selector, whether the
      control accepts typed text, and the matches of each typeahead
      suggestion selector after one character is typed. */
  datatype Dropdown = Dropdown(
    opens: bool,
    popup: seq<seq<Probe>>,
    typeable: bool,
    suggestions: seq<seq<Probe>>)

  /** One ancestor of a control: its attributes, rendered text and markup,
      the label-like descendants it holds (in document order), and whether
      it holds an explicit required-field marker element. */
  datatype Ancestor = Ancestor(
    attrs: map<string, string>,
    text: string,
    html: string,
    labels: seq<Probe>,
    hasRequiredMarker: bool)

  /** A form control. `ancestors[0]` is the parent; `nearbyLabels` are the
      first matches of the sibling/parent label probes, in probe order;
      `token` stands for the process-specific hash of the element handle. */
  datatype Control = Control(
    attrs: map<string, string>,
    visible: bool,
    disabled: bool,
    ancestors: seq<Ancestor>,
    nearbyLabels: seq<Probe>,
    options: seq<NativeOption>,
    dropdown: Dropdown,
    token: string)

  /** The page: its URL, the match lists of the selectors of each control
      category (one list per selector, in selector order), the answer to
      `input[name="…"]` for each name, the text of the element with a given
      `id`, the text of the `label[for=…]` of a given id, the resolution of
      relative links against the page URL, and the matches of the
      navigation selectors. */
  datatype Page = Page(
    url: string,
    textInputs: seq<seq<Control>>,
    textAreas: seq<seq<Control>>,
    selects: seq<seq<Control>>,
    checkboxes: seq<seq<Control>>,
    radios: seq<seq<Control>>,
    dateInputs: seq<seq<Control>>,
    fileInputs: seq<seq<Control>>,
    byName: map<string, seq<Control>>,
    textById: map<string, string>,
    labelFor: map<string, string>,
    joined: string -> string,
    navControls: seq<seq<Control>>)

  /** `element.get_attribute(name)` */
  function Attr(c: Control, name: string): Option<string> {
    if name in c.attrs then Some(c.attrs[name]) else None
  }

  /** Python truthiness of an optional string: present and non-empty. */
  predicate Truthy(o: Option<string>) {
    o.Some? && o.value != ""
  }

  /** `get_attribute(name) or default` */
  function AttrOr(c: Control, name: string, default: string): (r: string)
    ensures Truthy(Attr(c, name)) ==> r == c.attrs[name]
    ensures !Truthy(Attr(c, name)) ==> r == default
  {
    if Truthy(Attr(c, name)) then c.attrs[name] else default
  }

  /** The scraper skips a control that is hidden or disabled. */
  predicate Usable(c: Control) {
    c.visible && !c.disabled
  }

  /** `page.query_selector_all(f'input[name="{name}"]')` */
  function Named(page: Page, name: string): seq<Control> {
    if name in page.byName then page.byName[name] else []
  }
}
