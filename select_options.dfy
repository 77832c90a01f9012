/** The choices of a select-like control. A native `<select>` lists its
    `<option>`s; a script-driven dropdown is clicked open and its popup is
    read one selector at a time (at most 20 matches each) until a selector
    yields something; failing that, one character is typed and the typeahead
    suggestions are read the same way (at most 10 matches each). The texts
    are then deduplicated and cut to 15. */
module SelectOptions {
  import opened Seqs
  import opened PyText
  import opened Snapshot

  /** Lower-cased option texts that are only a prompt to choose. */
  const Placeholders: set<string> :=
    {"", "select...", "choose...", "please select", "-- select --", "select an option"}

  /** Lower-cased popup texts that are not choices. */
  const PopupPlaceholders: set<string> := {"select...", "choose...", "loading..."}

  const PopupCap: nat := 20
  const SuggestionCap: nat := 10
  const OptionsCap: nat := 15

  /** An option's stripped text, or its stripped `value` when the text is
      empty. */
  function NativeText(o: NativeOption): string {
    if o.text != "" then Strip(o.text)
    else if o.value.Some? then Strip(o.value.value)
    else ""
  }

  predicate KeepNative(t: string) {
    t != "" && Lower(t) !in Placeholders
  }

  /** The texts of the native options that are neither empty nor a
      placeholder, in document order. */
  function NativeTexts(opts: seq<NativeOption>): seq<string> {
    if opts == [] then []
    else
      var acc := NativeTexts(opts[..|opts| - 1]);
      var t := NativeText(opts[|opts| - 1]);
      if KeepNative(t) then acc + [t] else acc
  }

  /** A popup text that can be a choice: non-empty, under 100 characters,
      and no placeholder. */
  predicate PopupChoice(t: string) {
    t != "" && |t| < 100 && Lower(t) !in PopupPlaceholders
  }

  /** A suggestion text that can be a choice: non-empty and under 100
      characters. */
  predicate SuggestionChoice(t: string) {
    t != "" && |t| < 100
  }

  /** A probe's stripped text. */
  function StrippedText(p: Probe): string {
    Strip(p.text)
  }

  /** The texts `text` reads from the visible probes that `choice` accepts,
      each once, in document order. */
  function DistinctChoices(ps: seq<Probe>, text: Probe -> string, choice: string -> bool): (r: seq<string>)
    ensures NoDup(r)
    ensures forall x :: x in r ==> choice(x)
  {
    if ps == [] then []
    else
      var acc := DistinctChoices(ps[..|ps| - 1], text, choice);
      var p := ps[|ps| - 1];
      var t := text(p);
      if p.visible && choice(t) && t !in acc then acc + [t] else acc
  }

  /** The texts `text` reads from the visible probes that `choice` accepts,
      in document order, repeats included. */
  function VisibleChoices(ps: seq<Probe>, text: Probe -> string, choice: string -> bool): (r: seq<string>)
    ensures forall x :: x in r ==> choice(x)
  {
    if ps == [] then []
    else
      var acc := VisibleChoices(ps[..|ps| - 1], text, choice);
      var p := ps[|ps| - 1];
      var t := text(p);
      if p.visible && choice(t) then acc + [t] else acc
  }

  /** The texts one popup selector contributes: the visible stripped texts
      that are non-empty, under 100 characters, new and no placeholder. */
  function PopupTexts(ps: seq<Probe>): (r: seq<string>)
    ensures NoDup(r)
    ensures forall x :: x in r ==> x != "" && |x| < 100 && Lower(x) !in PopupPlaceholders
  {
    DistinctChoices(ps, StrippedText, PopupChoice)
  }

  /** The texts one suggestion selector contributes: the visible stripped
      texts that are non-empty and shorter than 100 characters. */
  function SuggestionTexts(ps: seq<Probe>): (r: seq<string>)
    ensures forall x :: x in r ==> x != "" && |x| < 100
  {
    VisibleChoices(ps, StrippedText, SuggestionChoice)
  }

  /** What one popup selector contributes from its first 20 matches. */
  function PopupYield(matches: seq<Probe>): seq<string> {
    PopupTexts(Take(matches, PopupCap))
  }

  /** What one suggestion selector contributes from its first 10 matches. */
  function SuggestionYield(matches: seq<Probe>): seq<string> {
    SuggestionTexts(Take(matches, SuggestionCap))
  }

  /** The contribution of the first selector that contributes anything. */
  function FirstYield(cats: seq<seq<Probe>>, contribution: seq<Probe> -> seq<string>): seq<string> {
    if cats == [] then []
    else
      var o := contribution(cats[0]);
      if o != [] then o else FirstYield(cats[1..], contribution)
  }

  /** The texts gathered before deduplication. A dropdown whose click fails
      yields nothing; typing is tried only after the popup yields nothing. */
  function RawOptions(c: Control): seq<string> {
    if c.options != [] then NativeTexts(c.options)
    else if !c.dropdown.opens then []
    else
      var p := FirstYield(c.dropdown.popup, PopupYield);
      if p != [] then p
      else if !c.dropdown.typeable then []
      else FirstYield(c.dropdown.suggestions, SuggestionYield)
  }

  /** The non-empty texts of `s` that have not occurred earlier, in order. */
  function Unique(s: seq<string>): seq<string> {
    if s == [] then []
    else
      var acc := Unique(s[..|s| - 1]);
      var x := s[|s| - 1];
      if x != "" && x !in acc then acc + [x] else acc
  }

  /** `_get_select_options` */
  function Options(c: Control): seq<string> {
    Take(Unique(RawOptions(c)), OptionsCap)
  }

  // ---------------------------------------------------------------------
  // Properties

  lemma {:induction false} UniqueMembers(s: seq<string>)
    ensures forall x :: x in Unique(s) <==> x in s && x != ""
  {
    if s != [] {
      var p := s[..|s| - 1];
      UniqueMembers(p);
      assert s == p + [s[|s| - 1]];
    }
  }

  lemma {:induction false} UniqueDistinct(s: seq<string>)
    ensures NoDup(Unique(s))
  {
    if s != [] {
      var p := s[..|s| - 1];
      UniqueDistinct(p);
      var x := s[|s| - 1];
      if x != "" && x !in Unique(p) {
        NoDupSnoc(Unique(p), x);
      }
    }
  }

  lemma {:induction false} UniqueSubseq(s: seq<string>)
    ensures IsSubseq(Unique(s), s)
  {
    if s != [] {
      var p := s[..|s| - 1];
      UniqueSubseq(p);
      SubseqAppend(Unique(p), p, s[|s| - 1]);
      assert s == p + [s[|s| - 1]];
    }
  }

  /** Deduplication keeps exactly the non-empty texts, once each, in their
      original order. */
  lemma UniqueSpec(s: seq<string>)
    ensures NoDup(Unique(s))
    ensures IsSubseq(Unique(s), s)
    ensures forall x :: x in Unique(s) <==> x in s && x != ""
  {
    UniqueMembers(s);
    UniqueDistinct(s);
    UniqueSubseq(s);
  }

  /** A list that is already free of duplicates and empty texts is left as
      it is. */
  lemma {:induction false} UniqueOfDistinct(s: seq<string>)
    requires NoDup(s) && "" !in s
    ensures Unique(s) == s
  {
    if s != [] {
      var p := s[..|s| - 1];
      assert NoDup(p);
      UniqueOfDistinct(p);
      assert s[|s| - 1] !in p by {
        forall i | 0 <= i < |p| ensures p[i] != s[|s| - 1] {
          assert p[i] == s[i];
        }
      }
    }
  }

  /** The choices have no duplicates, no empty text, at most 15 entries,
      and appear in the order the control offered them. */
  lemma OptionsShape(c: Control)
    ensures NoDup(Options(c))
    ensures "" !in Options(c)
    ensures |Options(c)| <= OptionsCap
    ensures IsSubseq(Options(c), RawOptions(c))
  {
    var u := Unique(RawOptions(c));
    UniqueSpec(RawOptions(c));
    var r := Options(c);
    assert r <= u;
    assert NoDup(r) by {
      forall i, j | 0 <= i < j < |r| ensures r[i] != r[j] {
        assert r[i] == u[i] && r[j] == u[j];
      }
    }
    assert forall i :: 0 <= i < |r| ==> r[i] == u[i] && u[i] in u;
    PrefixIsSubseq(r, u);
    SubseqTrans(r, u, RawOptions(c));
  }

  /** `x` is the stripped text of a visible match. */
  ghost predicate VisibleText(ps: seq<Probe>, x: string) {
    exists i :: 0 <= i < |ps| && ps[i].visible && Strip(ps[i].text) == x
  }

  /** Each entry of `DistinctChoices` is the text of a visible probe. */
  lemma {:induction false} DistinctChoicesSound(ps: seq<Probe>, text: Probe -> string, choice: string -> bool, x: string) returns (i: nat)
    requires x in DistinctChoices(ps, text, choice)
    ensures i < |ps| && ps[i].visible && text(ps[i]) == x
  {
    var p := ps[..|ps| - 1];
    if x in DistinctChoices(p, text, choice) {
      i := DistinctChoicesSound(p, text, choice, x);
      assert ps[i] == p[i];
    } else {
      i := |ps| - 1;
    }
  }

  /** The text of every visible probe that `choice` accepts is an
      entry of `DistinctChoices`. */
  lemma {:induction false} DistinctChoicesComplete(ps: seq<Probe>, text: Probe -> string, choice: string -> bool, i: nat)
    requires i < |ps| && ps[i].visible && choice(text(ps[i]))
    ensures text(ps[i]) in DistinctChoices(ps, text, choice)
  {
    var p := ps[..|ps| - 1];
    if i < |p| {
      assert ps[i] == p[i];
      DistinctChoicesComplete(p, text, choice, i);
    }
  }

  lemma {:induction false} DistinctChoicesLength(ps: seq<Probe>, text: Probe -> string, choice: string -> bool)
    ensures |DistinctChoices(ps, text, choice)| <= |ps|
  {
    if ps != [] {
      DistinctChoicesLength(ps[..|ps| - 1], text, choice);
    }
  }

  /** Each entry of `VisibleChoices` is the text of a visible probe. */
  lemma {:induction false} VisibleChoicesSound(ps: seq<Probe>, text: Probe -> string, choice: string -> bool, x: string) returns (i: nat)
    requires x in VisibleChoices(ps, text, choice)
    ensures i < |ps| && ps[i].visible && text(ps[i]) == x
  {
    var p := ps[..|ps| - 1];
    if x in VisibleChoices(p, text, choice) {
      i := VisibleChoicesSound(p, text, choice, x);
      assert ps[i] == p[i];
    } else {
      i := |ps| - 1;
    }
  }

  /** The text of every visible probe that `choice` accepts is an
      entry of `VisibleChoices`. */
  lemma {:induction false} VisibleChoicesComplete(ps: seq<Probe>, text: Probe -> string, choice: string -> bool, i: nat)
    requires i < |ps| && ps[i].visible && choice(text(ps[i]))
    ensures text(ps[i]) in VisibleChoices(ps, text, choice)
  {
    var p := ps[..|ps| - 1];
    if i < |p| {
      assert ps[i] == p[i];
      VisibleChoicesComplete(p, text, choice, i);
    }
  }

  lemma {:induction false} VisibleChoicesLength(ps: seq<Probe>, text: Probe -> string, choice: string -> bool)
    ensures |VisibleChoices(ps, text, choice)| <= |ps|
  {
    if ps != [] {
      VisibleChoicesLength(ps[..|ps| - 1], text, choice);
    }
  }

  /** One popup selector keeps exactly the stripped texts of its visible
      matches that can be choices, each once, and no more texts than it
      has matches. */
  lemma PopupTextsMembers(ps: seq<Probe>)
    ensures |PopupTexts(ps)| <= |ps|
    ensures forall x :: x in PopupTexts(ps) <==> PopupChoice(x) && VisibleText(ps, x)
  {
    DistinctChoicesLength(ps, StrippedText, PopupChoice);
    forall x | x in PopupTexts(ps) ensures VisibleText(ps, x) {
      var i := DistinctChoicesSound(ps, StrippedText, PopupChoice, x);
    }
    forall i | 0 <= i < |ps| && ps[i].visible && PopupChoice(Strip(ps[i].text))
      ensures Strip(ps[i].text) in PopupTexts(ps)
    {
      DistinctChoicesComplete(ps, StrippedText, PopupChoice, i);
    }
  }

  /** One suggestion selector keeps exactly the stripped texts of its
      visible matches that are non-empty and under 100 characters, and no
      more texts than it has matches. */
  lemma SuggestionTextsMembers(ps: seq<Probe>)
    ensures |SuggestionTexts(ps)| <= |ps|
    ensures forall x :: x in SuggestionTexts(ps) <==> x != "" && |x| < 100 && VisibleText(ps, x)
  {
    VisibleChoicesLength(ps, StrippedText, SuggestionChoice);
    forall x | x in SuggestionTexts(ps) ensures VisibleText(ps, x) {
      var i := VisibleChoicesSound(ps, StrippedText, SuggestionChoice, x);
    }
    forall i | 0 <= i < |ps| && ps[i].visible && SuggestionChoice(Strip(ps[i].text))
      ensures Strip(ps[i].text) in SuggestionTexts(ps)
    {
      VisibleChoicesComplete(ps, StrippedText, SuggestionChoice, i);
    }
  }

  /** A popup selector contributes at most 20 texts, read from its first 20
      matches only. */
  lemma PopupYieldSpec(matches: seq<Probe>)
    ensures |PopupYield(matches)| <= PopupCap
    ensures forall x :: x in PopupYield(matches) <==>
      PopupChoice(x) && exists i :: 0 <= i < |matches| && i < PopupCap && matches[i].visible && Strip(matches[i].text) == x
  {
    var t := Take(matches, PopupCap);
    PopupTextsMembers(t);
    assert forall i :: 0 <= i < |t| ==> t[i] == matches[i];
  }

  /** A suggestion selector contributes at most 10 texts, read from its
      first 10 matches only. */
  lemma SuggestionYieldSpec(matches: seq<Probe>)
    ensures |SuggestionYield(matches)| <= SuggestionCap
    ensures forall x :: x in SuggestionYield(matches) <==>
      x != "" && |x| < 100 &&
      exists i :: 0 <= i < |matches| && i < SuggestionCap && matches[i].visible && Strip(matches[i].text) == x
  {
    var t := Take(matches, SuggestionCap);
    SuggestionTextsMembers(t);
    assert forall i :: 0 <= i < |t| ==> t[i] == matches[i];
  }

  /** The text of every option, in document order. */
  function OptionTexts(opts: seq<NativeOption>): seq<string> {
    seq(|opts|, i requires 0 <= i < |opts| => NativeText(opts[i]))
  }

  lemma OptionTextsSnoc(opts: seq<NativeOption>)
    requires opts != []
    ensures OptionTexts(opts) == OptionTexts(opts[..|opts| - 1]) + [NativeText(opts[|opts| - 1])]
  {
    var p := opts[..|opts| - 1];
    var a := OptionTexts(opts);
    var b := OptionTexts(p) + [NativeText(opts[|opts| - 1])];
    forall i | 0 <= i < |a| ensures a[i] == b[i] {
      if i < |p| {
        assert p[i] == opts[i];
      }
    }
    assert a == b;
  }

  /** `x` is the text of one of the options. */
  ghost predicate IsNativeText(opts: seq<NativeOption>, x: string) {
    x in OptionTexts(opts)
  }

  /** The texts kept from native options are exactly the non-placeholder,
      non-empty texts (text preferred, value as fallback) of the options. */
  lemma {:induction false} NativeTextsMembers(opts: seq<NativeOption>)
    ensures forall x :: x in NativeTexts(opts) <==> KeepNative(x) && IsNativeText(opts, x)
  {
    if opts != [] {
      var p := opts[..|opts| - 1];
      NativeTextsMembers(p);
      OptionTextsSnoc(opts);
    }
  }

  /** For a native `<select>`, every choice is the text of one of its
      options and no placeholder; when at most 15 distinct choices exist,
      every non-placeholder option text is among the choices. */
  lemma NativeOptions(c: Control)
    requires c.options != []
    ensures forall x :: x in Options(c) ==> KeepNative(x) && IsNativeText(c.options, x)
    ensures |Unique(NativeTexts(c.options))| <= OptionsCap ==>
      forall i :: 0 <= i < |c.options| && KeepNative(NativeText(c.options[i])) ==>
        NativeText(c.options[i]) in Options(c)
  {
    NativeTextsMembers(c.options);
    forall i | 0 <= i < |c.options| ensures IsNativeText(c.options, NativeText(c.options[i])) {
      assert OptionTexts(c.options)[i] == NativeText(c.options[i]);
    }
    UniqueSpec(NativeTexts(c.options));
    var u := Unique(NativeTexts(c.options));
    assert forall x :: x in Options(c) ==> x in u by {
      forall x | x in Options(c) ensures x in u {
        var k :| 0 <= k < |Options(c)| && Options(c)[k] == x;
        assert u[k] == x;
      }
    }
  }

  /** Every selector before the `i`-th contributes nothing. */
  ghost predicate SilentBefore(cats: seq<seq<Probe>>, contribution: seq<Probe> -> seq<string>, i: nat) {
    i <= |cats| && forall j :: 0 <= j < i ==> contribution(cats[j]) == []
  }

  /** The position of the first selector that contributes anything, or
      `|cats|`. */
  function YieldIndex(cats: seq<seq<Probe>>, contribution: seq<Probe> -> seq<string>): (i: nat)
    ensures i <= |cats|
  {
    if cats == [] then 0
    else if contribution(cats[0]) != [] then 0
    else YieldIndex(cats[1..], contribution) + 1
  }

  /** A popup or suggestion scan returns what the first selector that
      contributes anything contributes, or nothing when every selector is
      silent. */
  lemma {:induction false} FirstYieldSpec(cats: seq<seq<Probe>>, contribution: seq<Probe> -> seq<string>)
    ensures var i := YieldIndex(cats, contribution);
      SilentBefore(cats, contribution, i) &&
      (i < |cats| ==> FirstYield(cats, contribution) == contribution(cats[i]) != []) &&
      (i == |cats| ==> FirstYield(cats, contribution) == [])
  {
    if cats != [] && contribution(cats[0]) == [] {
      var t := cats[1..];
      FirstYieldSpec(t, contribution);
      var i := YieldIndex(t, contribution);
      forall j | 0 <= j < i + 1 ensures contribution(cats[j]) == [] {
        if j > 0 { assert cats[j] == t[j - 1]; }
      }
      if i < |t| {
        assert cats[i + 1] == t[i];
      }
    }
  }

  /** A control with no native options whose click fails has no choices. */
  lemma NoOptionsWhenClosed(c: Control)
    requires c.options == [] && !c.dropdown.opens
    ensures Options(c) == []
  {
  }

  // ---------------------------------------------------------------------
  // The scraper's loops

  method CollectNativeOptions(opts: seq<NativeOption>) returns (options: seq<string>)
    ensures options == NativeTexts(opts)
  {
    options := [];
    for i := 0 to |opts|
      invariant options == NativeTexts(opts[..i])
    {
      assert opts[..i + 1][..i] == opts[..i];
      var optionText := if opts[i].text != "" then Strip(opts[i].text)
                        else if opts[i].value.Some? then Strip(opts[i].value.value)
                        else "";
      if optionText != "" && Lower(optionText) !in Placeholders {
        options := options + [optionText];
      }
    }
    assert opts[..|opts|] == opts;
  }

  /** The popup entries one selector matched. */
  method CollectPopup(matches: seq<Probe>) returns (options: seq<string>)
    ensures options == PopupTexts(matches)
  {
    options := [];
    for j := 0 to |matches|
      invariant options == PopupTexts(matches[..j])
    {
      assert matches[..j + 1][..j] == matches[..j];
      var t := Strip(matches[j].text);
      if matches[j].visible && t != "" && |t| < 100 && t !in options && Lower(t) !in PopupPlaceholders {
        options := options + [t];
      }
    }
    assert matches[..|matches|] == matches;
  }

  /** The popup selectors in order; the first 20 matches of each; stop after
      the first selector that yields something. */
  method ScanPopup(cats: seq<seq<Probe>>) returns (options: seq<string>)
    ensures options == FirstYield(cats, PopupYield)
  {
    options := [];
    var i := 0;
    while i < |cats| && options == []
      invariant 0 <= i <= |cats|
      invariant FirstYield(cats, PopupYield) == if options == [] then FirstYield(cats[i..], PopupYield) else options
    {
      options := CollectPopup(Take(cats[i], PopupCap));
      assert cats[i..][1..] == cats[i + 1..];
      i := i + 1;
    }
  }

  /** The typeahead suggestions one selector matched. */
  method CollectSuggestions(matches: seq<Probe>) returns (options: seq<string>)
    ensures options == SuggestionTexts(matches)
  {
    options := [];
    for j := 0 to |matches|
      invariant options == SuggestionTexts(matches[..j])
    {
      assert matches[..j + 1][..j] == matches[..j];
      var t := Strip(matches[j].text);
      if matches[j].visible && t != "" && |t| < 100 {
        options := options + [t];
      }
    }
    assert matches[..|matches|] == matches;
  }

  /** The suggestion selectors in order; the first 10 matches of each; stop
      after the first selector that yields something. */
  method ScanSuggestions(cats: seq<seq<Probe>>) returns (options: seq<string>)
    ensures options == FirstYield(cats, SuggestionYield)
  {
    options := [];
    var i := 0;
    while i < |cats| && options == []
      invariant 0 <= i <= |cats|
      invariant FirstYield(cats, SuggestionYield) == if options == [] then FirstYield(cats[i..], SuggestionYield) else options
    {
      options := CollectSuggestions(Take(cats[i], SuggestionCap));
      assert cats[i..][1..] == cats[i + 1..];
      i := i + 1;
    }
  }

  /** The texts gathered before deduplication. */
  method GatherOptions(c: Control) returns (options: seq<string>)
    ensures options == RawOptions(c)
  {
    if c.options != [] {
      options := CollectNativeOptions(c.options);
    } else if !c.dropdown.opens {
      options := [];
    } else {
      options := ScanPopup(c.dropdown.popup);
      if options == [] && c.dropdown.typeable {
        options := ScanSuggestions(c.dropdown.suggestions);
      }
    }
  }

  /** Drop empty and repeated texts with a `seen` set. */
  method RemoveRepeats(options: seq<string>) returns (unique: seq<string>)
    ensures unique == Unique(options)
  {
    unique := [];
    var seen: set<string> := {};
    for i := 0 to |options|
      invariant unique == Unique(options[..i])
      invariant forall x :: x in seen <==> x in unique
    {
      assert options[..i + 1][..i] == options[..i];
      if options[i] != "" && options[i] !in seen {
        unique := unique + [options[i]];
        seen := seen + {options[i]};
      }
    }
    assert options[..|options|] == options;
  }

  /** `_get_select_options`: gather, deduplicate, keep the first 15. */
  method GetSelectOptions(c: Control) returns (r: seq<string>)
    ensures r == Options(c)
  {
    var options := GatherOptions(c);
    var unique := RemoveRepeats(options);
    r := Take(unique, OptionsCap);
  }
}
