/** The label of a control, found by an ordered chain of probes; the first
    probe that yields an acceptable text decides. The chain ends with a
    phrase built from the control's automation identifier or `name`, and
    last with `Unnamed <type> field`. That last step names a variable that
    does not exist when the control has no `type` attribute: the error
    escapes the label lookup, which is modelled as `None`. */
module Labels {
  import opened Seqs
  import opened PyText
  import opened Snapshot

  /** A label probe's text is accepted when the element is visible and its
      stripped text is longer than 5 and shorter than 200 characters. */
  predicate Fits(p: Probe) {
    p.visible && 5 < |Strip(p.text)| < 200
  }

  /** The stripped text of the first fitting probe. */
  function FirstFitting(ps: seq<Probe>): (r: Option<string>)
    ensures r.Some? ==> 5 < |r.value| < 200
  {
    if ps == [] then None
    else if Fits(ps[0]) then Some(Strip(ps[0].text))
    else FirstFitting(ps[1..])
  }

  /** The position of the first fitting probe, or `|ps|`. */
  function FitIndex(ps: seq<Probe>): (i: nat)
    ensures i <= |ps|
  {
    if ps == [] then 0 else if Fits(ps[0]) then 0 else FitIndex(ps[1..]) + 1
  }

  /** The search finds nothing exactly when no probe fits, and otherwise
      the stripped text of the first fitting one. */
  lemma {:induction false} FirstFittingSpec(ps: seq<Probe>)
    ensures var i := FitIndex(ps);
      (i < |ps| ==> Fits(ps[i]) && FirstFitting(ps) == Some(Strip(ps[i].text))) &&
      (i == |ps| ==> FirstFitting(ps).None?) &&
      forall j :: 0 <= j < i ==> !Fits(ps[j])
  {
    if ps != [] && !Fits(ps[0]) {
      var tail := ps[1..];
      FirstFittingSpec(tail);
      var i := FitIndex(tail);
      assert forall j :: 0 <= j < i ==> !Fits(tail[j]);
      forall j | 0 <= j < i + 1 ensures !Fits(ps[j]) {
        if j > 0 {
          assert ps[j] == tail[j - 1];
        }
      }
      if i < |tail| {
        assert ps[i + 1] == tail[i];
      }
    }
  }

  /** Up to four ancestors, parent first: the first fitting label-like
      element any of them holds. */
  function FromAncestors(ancestors: seq<Ancestor>): (r: Option<string>)
    ensures r.Some? ==> 5 < |r.value| < 200
  {
    if ancestors == [] then None
    else match FirstFitting(ancestors[0].labels)
      case Some(t) => Some(t)
      case None => FromAncestors(ancestors[1..])
  }

  /** The position of the nearest ancestor holding a fitting label, or
      `|ancestors|`. */
  function AncestorIndex(ancestors: seq<Ancestor>): (i: nat)
    ensures i <= |ancestors|
  {
    if ancestors == [] then 0
    else if FirstFitting(ancestors[0].labels).Some? then 0
    else AncestorIndex(ancestors[1..]) + 1
  }

  /** The label taken from the ancestors is the first fitting label of the
      nearest ancestor that holds one; nearer ancestors hold none. */
  lemma {:induction false} FromAncestorsSpec(ancestors: seq<Ancestor>)
    ensures var i := AncestorIndex(ancestors);
      (forall j :: 0 <= j < i ==> FirstFitting(ancestors[j].labels).None?) &&
      (i < |ancestors| ==> FirstFitting(ancestors[i].labels).Some? &&
                           FromAncestors(ancestors) == FirstFitting(ancestors[i].labels)) &&
      (i == |ancestors| ==> FromAncestors(ancestors).None?)
  {
    if ancestors != [] && FirstFitting(ancestors[0].labels).None? {
      var tail := ancestors[1..];
      FromAncestorsSpec(tail);
      var i := AncestorIndex(tail);
      forall j | 0 <= j < i + 1 ensures FirstFitting(ancestors[j].labels).None? {
        if j > 0 {
          assert ancestors[j] == tail[j - 1];
        }
      }
      if i < |tail| {
        assert ancestors[i + 1] == tail[i];
      }
    }
  }

  /** A line of the parent's text that reads like a question or prompt. */
  predicate IsPromptLine(line: string) {
    5 < |line| < 150 &&
    (line[|line| - 1] == '?' || line[|line| - 1] == ':' ||
     ContainsAny(Lower(line), ["enter", "select", "choose", "provide"]))
  }

  /** `re.sub(r'\s+', ' ', line).strip()` */
  function CleanLine(line: string): string {
    Strip(CollapseSpaces(line))
  }

  /** The first line that, once cleaned, reads like a prompt. */
  function FirstPromptLine(lines: seq<string>): (r: Option<string>)
    ensures r.Some? ==> IsPromptLine(r.value)
  {
    if lines == [] then None
    else if IsPromptLine(CleanLine(lines[0])) then Some(CleanLine(lines[0]))
    else FirstPromptLine(lines[1..])
  }

  /** The position of the first line that reads like a prompt once
      cleaned, or `|lines|`. */
  function PromptIndex(lines: seq<string>): (i: nat)
    ensures i <= |lines|
  {
    if lines == [] then 0
    else if IsPromptLine(CleanLine(lines[0])) then 0
    else PromptIndex(lines[1..]) + 1
  }

  /** The chosen line is the cleaned form of the first line that reads like
      a prompt once cleaned; no earlier line does. */
  lemma {:induction false} FirstPromptLineSpec(lines: seq<string>)
    ensures var i := PromptIndex(lines);
      (forall j :: 0 <= j < i ==> !IsPromptLine(CleanLine(lines[j]))) &&
      (i < |lines| ==> IsPromptLine(CleanLine(lines[i])) && FirstPromptLine(lines) == Some(CleanLine(lines[i]))) &&
      (i == |lines| ==> FirstPromptLine(lines).None?)
  {
    if lines != [] && !IsPromptLine(CleanLine(lines[0])) {
      var tail := lines[1..];
      FirstPromptLineSpec(tail);
      var i := PromptIndex(tail);
      forall j | 0 <= j < i + 1 ensures !IsPromptLine(CleanLine(lines[j])) {
        if j > 0 {
          assert lines[j] == tail[j - 1];
        }
      }
      if i < |tail| {
        assert lines[i + 1] == tail[i];
      }
    }
  }

  /** The readable phrase for an identifier: `_` and `-` become spaces, a
      space goes between a lower-case and an upper-case letter, and the
      result is title-cased. */
  function Humanize(id: string): (r: string)
    ensures |r| >= |id|
  {
    Title(SplitCamel(SeparatorsToSpaces(id)))
  }

  /** `aria-label`, when it is not blank. */
  function ByAriaLabel(c: Control): Option<string> {
    var a := Attr(c, "aria-label");
    if a.Some? && Strip(a.value) != "" then Some(Strip(a.value)) else None
  }

  /** The text of the element named by `aria-labelledby`, or of the
      `label` whose `for` is the control's `id`, when it is not blank. */
  function ByReference(ref: Option<string>, texts: map<string, string>): Option<string> {
    if Truthy(ref) && ref.value in texts && Strip(texts[ref.value]) != ""
    then Some(Strip(texts[ref.value])) else None
  }

  function ByPlaceholder(c: Control): Option<string> {
    var p := Attr(c, "placeholder");
    if p.Some? && Strip(p.value) != "" then Some("Field: " + Strip(p.value)) else None
  }

  function ByParentText(c: Control): Option<string> {
    if c.ancestors != [] && c.ancestors[0].text != ""
    then FirstPromptLine(Split(c.ancestors[0].text, '\n'))
    else None
  }

  /** An automation identifier longer than five characters, else a
      non-empty `name`, turned into a phrase. */
  function ByIdentifier(c: Control): Option<string> {
    var aid := Attr(c, "data-automation-id");
    var name := Attr(c, "name");
    if Truthy(aid) && |aid.value| > 5 then Some(Humanize(aid.value))
    else if Truthy(name) then Some(Humanize(name.value))
    else None
  }

  function Take4(ancestors: seq<Ancestor>): seq<Ancestor> {
    if |ancestors| <= 4 then ancestors else ancestors[..4]
  }

  /** `_find_element_label`: `None` when the lookup raises. */
  function FindLabel(c: Control, page: Page): (r: Option<string>)
    ensures r.Some? ==> r.value != ""
    ensures ByAriaLabel(c).Some? ==> r == ByAriaLabel(c)
    ensures Truthy(Attr(c, "type")) ==> r.Some?
    ensures r.None? ==>
      (!Truthy(Attr(c, "type")) && !Truthy(Attr(c, "name")) &&
       ByPlaceholder(c).None? && ByAriaLabel(c).None?)
  {
    if ByAriaLabel(c).Some? then ByAriaLabel(c)
    else if ByReference(Attr(c, "aria-labelledby"), page.textById).Some? then
      ByReference(Attr(c, "aria-labelledby"), page.textById)
    else if ByReference(Attr(c, "id"), page.labelFor).Some? then
      ByReference(Attr(c, "id"), page.labelFor)
    else if FirstFitting(c.nearbyLabels).Some? then FirstFitting(c.nearbyLabels)
    else if FromAncestors(Take4(c.ancestors)).Some? then FromAncestors(Take4(c.ancestors))
    else if ByPlaceholder(c).Some? then ByPlaceholder(c)
    else if ByParentText(c).Some? then ByParentText(c)
    else if ByIdentifier(c).Some? then ByIdentifier(c)
    else if Truthy(Attr(c, "type")) then Some("Unnamed " + c.attrs["type"] + " field")
    else None
  }

  /** What the eight strategies find, in the order they are tried. */
  function Strategies(c: Control, page: Page): (os: seq<Option<string>>)
    ensures |os| == 8
  {
    [ByAriaLabel(c),
     ByReference(Attr(c, "aria-labelledby"), page.textById),
     ByReference(Attr(c, "id"), page.labelFor),
     FirstFitting(c.nearbyLabels),
     FromAncestors(Take4(c.ancestors)),
     ByPlaceholder(c),
     ByParentText(c),
     ByIdentifier(c)]
  }

  /** The position of the first strategy that finds a label, or `|os|`. */
  function FirstFound(os: seq<Option<string>>): (i: nat)
    ensures i <= |os|
    ensures i < |os| ==> os[i].Some?
    ensures forall j :: 0 <= j < i ==> os[j].None?
  {
    if os == [] then 0
    else if os[0].Some? then 0
    else
      var i := FirstFound(os[1..]);
      assert forall j :: 1 <= j < i + 1 ==> os[j] == os[1..][j - 1];
      i + 1
  }

  /** The lookup is an ordered chain: the first strategy that finds a
      label decides; only when all eight find nothing is the `Unnamed`
      label built, and only then can the lookup fail, which it does exactly
      when the control has no `type`. */
  lemma FindLabelChain(c: Control, page: Page)
    ensures var os := Strategies(c, page);
      var i := FirstFound(os);
      (i < |os| ==> FindLabel(c, page) == os[i]) &&
      (i == |os| ==>
         FindLabel(c, page) ==
         (if Truthy(Attr(c, "type")) then Some("Unnamed " + c.attrs["type"] + " field") else None))
    ensures FindLabel(c, page).None? <==>
      (forall j :: 0 <= j < 8 ==> Strategies(c, page)[j].None?) && !Truthy(Attr(c, "type"))
  {
    var os := Strategies(c, page);
    var i := FirstFound(os);
    var r := FindLabel(c, page);
    if i == 0 {
      assert r == os[0];
    } else if i == 1 {
      assert os[0].None? && r == os[1];
    } else if i == 2 {
      assert os[0].None? && os[1].None? && r == os[2];
    } else if i == 3 {
      assert os[0].None? && os[1].None? && os[2].None? && r == os[3];
    } else if i == 4 {
      assert os[0].None? && os[1].None? && os[2].None? && os[3].None? && r == os[4];
    } else if i == 5 {
      assert os[0].None? && os[1].None? && os[2].None? && os[3].None? && os[4].None? && r == os[5];
    } else if i == 6 {
      assert os[0].None? && os[1].None? && os[2].None? && os[3].None? && os[4].None? && os[5].None?;
      assert r == os[6];
    } else if i == 7 {
      assert os[0].None? && os[1].None? && os[2].None? && os[3].None? && os[4].None? && os[5].None?;
      assert os[6].None? && r == os[7];
    } else {
      assert os[0].None? && os[1].None? && os[2].None? && os[3].None? && os[4].None? && os[5].None?;
      assert os[6].None? && os[7].None?;
    }
  }

  // ---------------------------------------------------------------------
  // What the identifier phrase keeps: the identifier's characters, up to
  // case and separators.

  predicate IsSeparator(c: char) { c == ' ' || c == '_' || c == '-' }

  /** The characters of `s` with separators dropped and letters
      lower-cased. */
  function Squash(s: string): string {
    if s == [] then [] else (if IsSeparator(s[0]) then [] else [LowerChar(s[0])]) + Squash(s[1..])
  }

  lemma {:induction false} SquashConcat(a: string, b: string)
    ensures Squash(a + b) == Squash(a) + Squash(b)
  {
    if a == [] {
      assert a + b == b;
    } else {
      assert (a + b)[1..] == a[1..] + b;
      SquashConcat(a[1..], b);
      var h := if IsSeparator(a[0]) then [] else [LowerChar(a[0])];
      assert Squash(a + b) == h + Squash(a[1..] + b);
    }
  }

  lemma {:induction false} SquashSeparators(s: string)
    ensures Squash(SeparatorsToSpaces(s)) == Squash(s)
  {
    if s != [] {
      assert SeparatorsToSpaces(s)[1..] == SeparatorsToSpaces(s[1..]);
      SquashSeparators(s[1..]);
    }
  }

  lemma {:induction false} SquashSplitCamel(s: string)
    ensures Squash(SplitCamel(s)) == Squash(s)
    decreases |s|
  {
    if |s| >= 2 && IsLower(s[0]) && IsUpper(s[1]) {
      SquashSplitCamel(s[2..]);
      SquashConcat([s[0], ' ', s[1]], SplitCamel(s[2..]));
      assert s == [s[0], s[1]] + s[2..];
      SquashConcat([s[0], s[1]], s[2..]);
    } else if s != [] {
      SquashSplitCamel(s[1..]);
      SquashConcat([s[0]], SplitCamel(s[1..]));
    }
  }

  lemma {:induction false} SquashTitle(s: string, afterLetter: bool)
    ensures Squash(TitleFrom(s, afterLetter)) == Squash(s)
  {
    if s != [] {
      SquashTitle(s[1..], IsLetter(s[0]));
      var c := s[0];
      var c' := if !IsLetter(c) then c else if afterLetter then LowerChar(c) else UpperChar(c);
      assert TitleFrom(s, afterLetter) == [c'] + TitleFrom(s[1..], IsLetter(c));
      SquashConcat([c'], TitleFrom(s[1..], IsLetter(c)));
      assert LowerChar(c') == LowerChar(c);
    }
  }

  /** The phrase built from an identifier spells the identifier: dropping
      spaces, `_` and `-` and ignoring case, both read the same. */
  lemma HumanizeKeepsIdentifier(id: string)
    ensures Squash(Humanize(id)) == Squash(id)
  {
    SquashTitle(SplitCamel(SeparatorsToSpaces(id)), false);
    SquashSplitCamel(SeparatorsToSpaces(id));
    SquashSeparators(id);
  }

  /** Title case: a letter that follows a letter is not upper case, and any
      other letter is not lower case. */
  ghost predicate IsTitleCased(r: string) {
    forall i :: 0 <= i < |r| ==>
      if i > 0 && IsLetter(r[i - 1]) then !IsUpper(r[i]) else !IsLower(r[i])
  }

  lemma {:induction false} TitleFromShape(s: string, afterLetter: bool)
    ensures var r := TitleFrom(s, afterLetter);
      (forall i :: 0 <= i < |s| ==> IsLetter(r[i]) == IsLetter(s[i])) &&
      (|r| > 0 ==> (if afterLetter then !IsUpper(r[0]) else !IsLower(r[0]))) &&
      (forall i :: 0 < i < |r| ==> if IsLetter(r[i - 1]) then !IsUpper(r[i]) else !IsLower(r[i]))
  {
    if s != [] {
      TitleFromShape(s[1..], IsLetter(s[0]));
      var r := TitleFrom(s, afterLetter);
      var t := TitleFrom(s[1..], IsLetter(s[0]));
      assert r[1..] == t;
      forall i | 0 < i < |r| ensures if IsLetter(r[i - 1]) then !IsUpper(r[i]) else !IsLower(r[i]) {
        if i > 1 {
          assert r[i] == t[i - 1] && r[i - 1] == t[i - 2];
        } else {
          assert IsLetter(r[0]) == IsLetter(s[0]);
        }
      }
    }
  }

  /** The identifier phrase is title-cased, so every word starts with an
      upper-case letter and continues in lower case. */
  lemma HumanizeIsTitleCased(id: string)
    ensures IsTitleCased(Humanize(id))
  {
    TitleFromShape(SplitCamel(SeparatorsToSpaces(id)), false);
  }
}
