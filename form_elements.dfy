/** The catalogue entry the mapper emits for one control, and the removal of
    entries whose identifier was already emitted (first occurrence wins),
    which the scraper applies to each page's entries and again to the whole
    session's. */
module FormElements {
  import opened Seqs

  /** `type_of_input` */
  datatype Category = Text | TextArea | Select | MultiSelect | Checkbox | Radio | Date | File

  /** The string the catalogue carries for a category. */
  function CategoryName(k: Category): string {
    match k
    case Text => "text"
    case TextArea => "textarea"
    case Select => "select"
    case MultiSelect => "multiselect"
    case Checkbox => "checkbox"
    case Radio => "radio"
    case Date => "date"
    case File => "file"
  }

  /** One discovered control: label, `id_of_input_component`, required flag,
      category, choice set and sample values (`None` where the scraper leaves
      the field unset). */
  datatype FormElement = FormElement(
    labelText: string,
    id: string,
    required: bool,
    kind: Category,
    options: Option<seq<string>>,
    samples: Option<seq<string>>)

  /** The identifiers carried by a list of entries. */
  function Ids(s: seq<FormElement>): set<string> {
    set e | e in s :: e.id
  }

  lemma IdsSnoc(s: seq<FormElement>, e: FormElement)
    ensures Ids(s + [e]) == Ids(s) + {e.id}
  {
    forall id | id in Ids(s + [e]) ensures id in Ids(s) + {e.id} {
      var x :| x in s + [e] && x.id == id;
      if x != e { assert x in s; }
    }
  }

  lemma IdsOfPrefix(s: seq<FormElement>)
    requires s != []
    ensures Ids(s) == Ids(s[..|s| - 1]) + {s[|s| - 1].id}
  {
    assert s == s[..|s| - 1] + [s[|s| - 1]];
    IdsSnoc(s[..|s| - 1], s[|s| - 1]);
  }

  /** The position of the first entry of `s` that carries `id`. */
  function FirstIndex(s: seq<FormElement>, id: string): (i: nat)
    requires id in Ids(s)
    ensures i < |s| && s[i].id == id
    ensures forall j :: 0 <= j < i ==> s[j].id != id
  {
    var p := s[..|s| - 1];
    IdsOfPrefix(s);
    if id in Ids(p) then
      var i := FirstIndex(p, id);
      assert s[i] == p[i];
      i
    else
      assert forall j :: 0 <= j < |p| ==> p[j] in p;
      |s| - 1
  }

  /** The entries of `s` whose identifier has not occurred earlier in `s`,
      in their original order. */
  function Dedup(s: seq<FormElement>): seq<FormElement> {
    if s == [] then []
    else
      var acc := Dedup(s[..|s| - 1]);
      var e := s[|s| - 1];
      if e.id in Ids(acc) then acc else acc + [e]
  }

  /** Deduplication keeps every identifier of the input and adds none. */
  lemma {:induction false} DedupIds(s: seq<FormElement>)
    ensures Ids(Dedup(s)) == Ids(s)
  {
    if s != [] {
      var p := s[..|s| - 1];
      DedupIds(p);
      IdsOfPrefix(s);
      if s[|s| - 1].id !in Ids(Dedup(p)) {
        IdsSnoc(Dedup(p), s[|s| - 1]);
      }
    }
  }

  /** No two entries carry the same identifier. */
  ghost predicate DistinctIds(s: seq<FormElement>) {
    forall i, j :: 0 <= i < j < |s| ==> s[i].id != s[j].id
  }

  /** No two entries of the result carry the same identifier. */
  lemma {:induction false} DedupDistinct(s: seq<FormElement>)
    ensures DistinctIds(Dedup(s))
  {
    if s != [] {
      var p := s[..|s| - 1];
      DedupDistinct(p);
      var acc := Dedup(p);
      var e := s[|s| - 1];
      if e.id !in Ids(acc) {
        var r := acc + [e];
        forall i, j | 0 <= i < j < |r| ensures r[i].id != r[j].id {
          if j == |acc| {
            assert r[i] == acc[i] && acc[i] in acc;
            assert r[i].id in Ids(acc);
            assert r[j] == e;
          } else {
            assert r[i] == acc[i] && r[j] == acc[j];
          }
        }
      }
    }
  }

  /** The result is the input with some entries deleted, in the same order. */
  lemma {:induction false} DedupSubseq(s: seq<FormElement>)
    ensures IsSubseq(Dedup(s), s)
  {
    if s != [] {
      var p := s[..|s| - 1];
      DedupSubseq(p);
      SubseqAppend(Dedup(p), p, s[|s| - 1]);
      assert s == p + [s[|s| - 1]];
    }
  }

  /** Each kept entry is the first entry of the input carrying its
      identifier. */
  lemma {:induction false} DedupFirstWins(s: seq<FormElement>)
    ensures var r := Dedup(s);
      forall k :: 0 <= k < |r| ==> r[k].id in Ids(s) && r[k] == s[FirstIndex(s, r[k].id)]
  {
    if s != [] {
      var p := s[..|s| - 1];
      DedupFirstWins(p);
      DedupIds(p);
      IdsOfPrefix(s);
      var acc := Dedup(p);
      var e := s[|s| - 1];
      var r := Dedup(s);
      forall k | 0 <= k < |r| ensures r[k].id in Ids(s) && r[k] == s[FirstIndex(s, r[k].id)] {
        if k < |acc| {
          assert r[k] == acc[k];
          var i := FirstIndex(p, acc[k].id);
          assert FirstIndex(s, acc[k].id) == i;
          assert s[i] == p[i];
        } else {
          assert r[k] == e && e.id !in Ids(p);
        }
      }
    }
  }

  /** The scraper's loop: keep an entry when its identifier is not yet in
      `seen_ids`, and record it. */
  method RemoveDuplicateIds(elements: seq<FormElement>) returns (unique: seq<FormElement>)
    ensures unique == Dedup(elements)
  {
    unique := [];
    var seenIds: set<string> := {};
    for i := 0 to |elements|
      invariant unique == Dedup(elements[..i])
      invariant seenIds == Ids(unique)
    {
      assert elements[..i + 1][..i] == elements[..i];
      if elements[i].id !in seenIds {
        IdsSnoc(unique, elements[i]);
        unique := unique + [elements[i]];
        seenIds := seenIds + {elements[i].id};
      }
    }
    assert elements[..|elements|] == elements;
  }
}
