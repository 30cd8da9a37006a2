/** The `scope` value of the authorize request: `openid` first, then the other scopes, each once. */
module Scopes {
  import opened Strings

  /** The elements of a list at their first occurrences, in order. */
  function FirstOccurrences(l: seq<string>): seq<string> {
    if l == [] then []
    else
      var init, last := l[..|l| - 1], l[|l| - 1];
      FirstOccurrences(init) + (if last in init then [] else [last])
  }

  function Fold(scopes: seq<string>): seq<string> {
    FirstOccurrences(["openid"] + scopes)
  }

  /** The loop of the source: a scope is appended unless the result already holds it. */
  method ScopeValue(scopes: seq<string>) returns (value: string)
    ensures value == Join(Fold(scopes), ' ')
  {
    var acc := ["openid"];
    assert ["openid"] + scopes[..0] == ["openid"] && ["openid"][..0] == [];
    var i := 0;
    while i < |scopes|
      invariant 0 <= i <= |scopes|
      invariant acc == Fold(scopes[..i])
    {
      var seen := ["openid"] + scopes[..i];
      var next := ["openid"] + scopes[..i + 1];
      assert next[..|next| - 1] == seen && next[|next| - 1] == scopes[i];
      Members(seen);
      if scopes[i] !in acc {
        acc := acc + [scopes[i]];
      }
      i := i + 1;
    }
    assert scopes[..i] == scopes;
    value := Join(acc, ' ');
  }

  lemma {:induction false} Members(l: seq<string>)
    ensures forall x :: x in FirstOccurrences(l) <==> x in l
  {
    if l != [] {
      Members(l[..|l| - 1]);
      assert l == l[..|l| - 1] + [l[|l| - 1]];
    }
  }

  /** The position at which `x` first occurs. */
  function FirstIndex(l: seq<string>, x: string): nat
    requires x in l
  {
    if l[0] == x then 0 else 1 + FirstIndex(l[1..], x)
  }

  lemma {:induction false} FirstIndexIsFirst(l: seq<string>, x: string)
    requires x in l
    ensures FirstIndex(l, x) < |l| && l[FirstIndex(l, x)] == x && x !in l[..FirstIndex(l, x)]
  {
    if l[0] != x {
      FirstIndexIsFirst(l[1..], x);
      assert l[..FirstIndex(l, x)] == [l[0]] + l[1..][..FirstIndex(l[1..], x)];
    }
  }

  lemma {:induction false} FirstIndexPrefix(l: seq<string>, tail: seq<string>, x: string)
    requires x in l
    ensures FirstIndex(l + tail, x) == FirstIndex(l, x)
  {
    if l[0] != x {
      assert (l + tail)[1..] == l[1..] + tail;
      FirstIndexPrefix(l[1..], tail, x);
    }
  }

  /** The results stand in the order of their first occurrences; in particular none stands twice. */
  lemma {:induction false} InOrder(l: seq<string>, p: nat, q: nat)
    requires p < q < |FirstOccurrences(l)|
    ensures FirstOccurrences(l)[p] in l && FirstOccurrences(l)[q] in l
    ensures FirstIndex(l, FirstOccurrences(l)[p]) < FirstIndex(l, FirstOccurrences(l)[q])
  {
    var init, last := l[..|l| - 1], l[|l| - 1];
    var r := FirstOccurrences(l);
    Members(l);
    Members(init);
    assert l == init + [last];
    assert r[p] in FirstOccurrences(init);
    FirstIndexPrefix(init, [last], r[p]);
    FirstIndexIsFirst(init, r[p]);
    if q < |FirstOccurrences(init)| {
      InOrder(init, p, q);
      FirstIndexPrefix(init, [last], r[q]);
    } else {
      FirstIndexIsFirst(l, last);
      assert last !in init;
      assert forall k :: 0 <= k < |init| ==> l[k] == init[k] && init[k] != last;
    }
  }

  lemma {:induction false} StartsWithHead(l: seq<string>)
    requires l != []
    ensures FirstOccurrences(l) != [] && FirstOccurrences(l)[0] == l[0]
  {
    if |l| == 1 {
      assert l[..0] == [];
    } else {
      StartsWithHead(l[..|l| - 1]);
    }
  }

  predicate NoDuplicates(l: seq<string>) {
    forall i, j :: 0 <= i < j < |l| ==> l[i] != l[j]
  }

  lemma {:induction false} NothingToFold(l: seq<string>)
    requires NoDuplicates(l)
    ensures FirstOccurrences(l) == l
  {
    if l != [] {
      NothingToFold(l[..|l| - 1]);
      assert l == l[..|l| - 1] + [l[|l| - 1]];
    }
  }

  lemma {:induction false} RepeatedHead(x: string, l: seq<string>)
    requires l != [] && l[0] == x
    ensures FirstOccurrences([x] + l) == FirstOccurrences(l)
  {
    var m := [x] + l;
    var init, last := l[..|l| - 1], l[|l| - 1];
    assert m[..|m| - 1] == [x] + init && m[|m| - 1] == last;
    if |l| == 1 {
      assert m[..|m| - 1] == [x] && l == [x];
      assert l[..0] == [] && [x][..0] == [];
    } else {
      RepeatedHead(x, init);
    }
  }

  /**
   The folded list starts with `openid`, holds `openid` and every given scope and nothing else, each once and in
   the order of their first occurrence, and folding it again changes nothing.
   */
  lemma FoldedScopes(scopes: seq<string>)
    ensures var r := Fold(scopes);
            && r != [] && r[0] == "openid"
            && (forall x :: x in r <==> x == "openid" || x in scopes)
            && NoDuplicates(r)
            && (forall p, q :: 0 <= p < q < |r| ==>
                  && r[p] in ["openid"] + scopes && r[q] in ["openid"] + scopes
                  && FirstIndex(["openid"] + scopes, r[p]) < FirstIndex(["openid"] + scopes, r[q]))
            && Fold(r) == r
  {
    var l := ["openid"] + scopes;
    var r := Fold(scopes);
    StartsWithHead(l);
    Members(l);
    forall p, q | 0 <= p < q < |r|
      ensures r[p] in l && r[q] in l && FirstIndex(l, r[p]) < FirstIndex(l, r[q]) && r[p] != r[q]
    {
      InOrder(l, p, q);
    }
    RepeatedHead("openid", r);
    NothingToFold(r);
  }

  lemma {:induction false} FirstOccurrencesGrow(l: seq<string>, more: seq<string>)
    ensures FirstOccurrences(l) <= FirstOccurrences(l + more)
  {
    if more == [] {
      assert l + more == l;
    } else {
      FirstOccurrencesGrow(l, more[..|more| - 1]);
      assert (l + more)[..|l + more| - 1] == l + more[..|more| - 1];
    }
  }

  lemma Behind(a: seq<string>, b: seq<string>)
    requires a <= b && NoDuplicates(b)
    ensures forall x :: x in b[|a|..] <==> x in b && x !in a
  {
    assert b == a + b[|a|..];
    forall x | x in b[|a|..] ensures x !in a {
      var i :| |a| <= i < |b| && b[i] == x;
      assert forall j :: 0 <= j < |a| ==> a[j] == b[j];
    }
  }

  /** Further scopes only ever go behind the ones already folded, and only those that are new do. */
  lemma FoldGrows(scopes: seq<string>, more: seq<string>)
    ensures Fold(scopes) <= Fold(scopes + more)
    ensures forall x :: x in Fold(scopes + more)[|Fold(scopes)|..] <==> x in more && x !in Fold(scopes)
  {
    FirstOccurrencesGrow(["openid"] + scopes, more);
    assert ["openid"] + scopes + more == ["openid"] + (scopes + more);
    FoldedScopes(scopes);
    FoldedScopes(scopes + more);
    Behind(Fold(scopes), Fold(scopes + more));
    hide Fold, FirstOccurrences, FirstIndex, NoDuplicates;
  }

  /** The value of the request splits back into that list exactly when no scope contains a space. */
  lemma ScopeValueSplits(scopes: seq<string>)
    ensures Split(Join(Fold(scopes), ' '), ' ') == Fold(scopes) <==> forall x :: x in scopes ==> ' ' !in x
  {
    FoldedScopes(scopes);
    SplitJoin(Fold(scopes), ' ');
    assert ' ' !in "openid";
  }
}
