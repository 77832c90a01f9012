/** Generic facts about sequences shared by the model: the optional value,
    duplicate-freedom, order-preserving subsequences and the flattening of
    the per-selector match lists that every scan walks through. */
module Seqs {

  datatype Option<+T> = None | Some(value: T)

  /** No element occurs twice. */
  ghost predicate NoDup<T>(s: seq<T>) {
    forall i, j :: 0 <= i < j < |s| ==> s[i] != s[j]
  }

  /** `r` is obtained from `s` by deleting elements, keeping the order. */
  ghost predicate IsSubseq<T>(r: seq<T>, s: seq<T>)
    decreases |s|
  {
    r == [] ||
    (s != [] &&
     ((r[|r| - 1] == s[|s| - 1] && IsSubseq(r[..|r| - 1], s[..|s| - 1])) ||
      IsSubseq(r, s[..|s| - 1])))
  }

  /** The concatenation of the match lists of several selectors, in selector
      order: what a loop over the selectors and then over each selector's
      matches visits. */
  function Flatten<T>(m: seq<seq<T>>): (r: seq<T>)
    ensures |r| == 0 <==> forall i :: 0 <= i < |m| ==> m[i] == []
  {
    if m == [] then [] else Flatten(m[..|m| - 1]) + m[|m| - 1]
  }

  /** The first `n` elements, or all of them when there are fewer
      (Python's `s[:n]`). */
  function Take<T>(s: seq<T>, n: nat): (r: seq<T>)
    ensures |r| == if |s| < n then |s| else n
    ensures r <= s
  {
    if |s| <= n then s else s[..n]
  }

  /** `ys` is `f` applied to `xs`, element by element. */
  ghost predicate MapsTo<X, Y>(ys: seq<Y>, xs: seq<X>, f: X -> Y) {
    |ys| == |xs| && forall i :: 0 <= i < |xs| ==> ys[i] == f(xs[i])
  }

  lemma MapsToSnoc<X, Y>(ys: seq<Y>, xs: seq<X>, f: X -> Y, x: X, y: Y)
    requires MapsTo(ys, xs, f) && y == f(x)
    ensures MapsTo(ys + [y], xs + [x], f)
  {
    var ys' := ys + [y];
    var xs' := xs + [x];
    forall i | 0 <= i < |xs'| ensures ys'[i] == f(xs'[i]) {
      if i < |xs| {
        assert ys'[i] == ys[i] && xs'[i] == xs[i];
      }
    }
  }

  /** One more element of `s` after a fixed prefix. */
  lemma PrefixSnoc<T>(base: seq<T>, s: seq<T>, j: nat)
    requires j < |s|
    ensures base + s[..j + 1] == (base + s[..j]) + [s[j]]
  {
    assert s[..j + 1] == s[..j] + [s[j]];
  }

  lemma NoDupSnoc<T>(s: seq<T>, x: T)
    requires NoDup(s) && x !in s
    ensures NoDup(s + [x])
  {
    var t := s + [x];
    forall i, j | 0 <= i < j < |t| ensures t[i] != t[j] {
      assert t[i] == s[i];
    }
  }

  lemma SubseqAppend<T>(r: seq<T>, s: seq<T>, x: T)
    requires IsSubseq(r, s)
    ensures IsSubseq(r + [x], s + [x])
    ensures IsSubseq(r, s + [x])
  {
    assert (r + [x])[..|r|] == r;
    assert (s + [x])[..|s|] == s;
  }

  lemma {:induction false} SubseqRefl<T>(s: seq<T>)
    ensures IsSubseq(s, s)
  {
    if s != [] {
      SubseqRefl(s[..|s| - 1]);
    }
  }

  /** Every element of a subsequence is an element of the whole. */
  lemma {:induction false} SubseqMembers<T>(r: seq<T>, s: seq<T>)
    requires IsSubseq(r, s)
    ensures forall x :: x in r ==> x in s
  {
    if r != [] {
      if r[|r| - 1] == s[|s| - 1] && IsSubseq(r[..|r| - 1], s[..|s| - 1]) {
        SubseqMembers(r[..|r| - 1], s[..|s| - 1]);
        assert r == r[..|r| - 1] + [r[|r| - 1]];
        assert s == s[..|s| - 1] + [s[|s| - 1]];
      } else {
        SubseqMembers(r, s[..|s| - 1]);
      }
    }
  }

  /** Subsequences compose. */
  lemma {:induction false} SubseqTrans<T>(a: seq<T>, b: seq<T>, c: seq<T>)
    requires IsSubseq(a, b) && IsSubseq(b, c)
    ensures IsSubseq(a, c)
    decreases |c|
  {
    if a != [] {
      assert b != [] && c != [];
      var b', c' := b[..|b| - 1], c[..|c| - 1];
      if b[|b| - 1] == c[|c| - 1] && IsSubseq(b', c') {
        if a[|a| - 1] == b[|b| - 1] && IsSubseq(a[..|a| - 1], b') {
          SubseqTrans(a[..|a| - 1], b', c');
        } else {
          SubseqTrans(a, b', c');
        }
      } else {
        SubseqTrans(a, b, c');
      }
    }
  }

  /** A prefix is a subsequence. */
  lemma {:induction false} PrefixIsSubseq<T>(r: seq<T>, s: seq<T>)
    requires r <= s
    ensures IsSubseq(r, s)
    decreases |s|
  {
    if |r| == |s| {
      assert r == s;
      SubseqRefl(s);
    } else {
      assert r <= s[..|s| - 1];
      PrefixIsSubseq(r, s[..|s| - 1]);
    }
  }

  lemma FlattenStep<T>(m: seq<seq<T>>, i: nat)
    requires i < |m|
    ensures Flatten(m[..i + 1]) == Flatten(m[..i]) + m[i]
  {
    assert m[..i + 1][..i] == m[..i];
  }

  lemma FlattenAll<T>(m: seq<seq<T>>)
    ensures Flatten(m[..|m|]) == Flatten(m)
  {
    assert m[..|m|] == m;
  }

  /** Appending one more part, after some prefix `base`. */
  lemma FlattenSnoc<T>(base: seq<T>, m: seq<seq<T>>, x: seq<T>)
    ensures base + Flatten(m) + x == base + Flatten(m + [x])
  {
    assert (m + [x])[..|m|] == m;
  }

  /** Every element of the concatenation comes from one of the parts. */
  lemma {:induction false} FlattenMembers<T>(m: seq<seq<T>>)
    ensures forall x :: x in Flatten(m) ==> exists i :: 0 <= i < |m| && x in m[i]
  {
    if m != [] {
      var p := m[..|m| - 1];
      FlattenMembers(p);
      forall x | x in Flatten(m) ensures exists i :: 0 <= i < |m| && x in m[i] {
        if x in Flatten(p) {
          var i :| 0 <= i < |p| && x in p[i];
          assert m[i] == p[i];
        } else {
          assert x in m[|m| - 1];
        }
      }
    }
  }

  /** The present values of a sequence of optional values, in order. */
  function Somes<T>(s: seq<Option<T>>): seq<T> {
    if s == [] then []
    else
      var acc := Somes(s[..|s| - 1]);
      match s[|s| - 1]
      case None => acc
      case Some(x) => acc + [x]
  }

  lemma SomesSnoc<T>(s: seq<Option<T>>, o: Option<T>)
    ensures Somes(s + [o]) == Somes(s) + (if o.Some? then [o.value] else [])
  {
    assert (s + [o])[..|s|] == s;
  }

  lemma {:induction false} SomesConcat<T>(a: seq<Option<T>>, b: seq<Option<T>>)
    ensures Somes(a + b) == Somes(a) + Somes(b)
    decreases |b|
  {
    if b == [] {
      assert a + b == a;
    } else {
      var b' := b[..|b| - 1];
      var o := b[|b| - 1];
      SomesConcat(a, b');
      assert a + b == (a + b') + [o];
      assert b == b' + [o];
      SomesSnoc(a + b', o);
      SomesSnoc(b', o);
    }
  }

  /** Exactly the present values are kept, and no more than there were
      entries. */
  lemma {:induction false} SomesMembers<T>(s: seq<Option<T>>)
    ensures forall x :: x in Somes(s) <==> Some(x) in s
    ensures |Somes(s)| <= |s|
  {
    if s != [] {
      SomesMembers(s[..|s| - 1]);
      assert s == s[..|s| - 1] + [s[|s| - 1]];
    }
  }
}
