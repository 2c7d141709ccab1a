/**
  The fixed component vocabulary that generated code may use, and the
  detection of which of those components a piece of code actually opens a
  tag for. The same eight names, in the same order, are the validator's
  whitelist and the explainer's detection list.
*/
module Components {
  import opened Text

  /** The whitelist, in its declared order. */
  const Whitelist: seq<string> := ["Button", "Card", "Input", "Table", "Modal", "Sidebar", "Navbar", "Chart"]

  /** The opening-tag text `<Name` whose presence counts as using `Name`. */
  function OpeningTag(name: string): string {
    "<" + name
  }

  predicate Distinct<T(==)>(xs: seq<T>) {
    forall i, j :: 0 <= i < j < |xs| ==> xs[i] != xs[j]
  }

  /** `xs` keeps some of the elements of `ys`, in the order they have there. */
  predicate IsSubsequence<T(==)>(xs: seq<T>, ys: seq<T>)
    decreases |ys|
  {
    if xs == [] then true
    else if ys == [] then false
    else if xs[0] == ys[0] then IsSubsequence(xs[1..], ys[1..])
    else IsSubsequence(xs, ys[1..])
  }

  /** `names.filter(name => code.includes('<' + name))`. */
  function Present(names: seq<string>, code: string): (r: seq<string>)
  {
    if names == [] then []
    else if Contains(code, OpeningTag(names[0])) then [names[0]] + Present(names[1..], code)
    else Present(names[1..], code)
  }

  /** A name is kept exactly when it is one of `names` and its opening tag occurs in `code`. */
  lemma {:induction false} PresentMembers(names: seq<string>, code: string, c: string)
    ensures c in Present(names, code) <==> c in names && Contains(code, OpeningTag(c))
  {
    if names != [] {
      PresentMembers(names[1..], code, c);
      assert names == [names[0]] + names[1..];
    }
  }

  /** The kept names appear in the order of `names`. */
  lemma {:induction false} PresentIsSubsequence(names: seq<string>, code: string)
    ensures IsSubsequence(Present(names, code), names)
  {
    if names != [] {
      PresentIsSubsequence(names[1..], code);
      if !Contains(code, OpeningTag(names[0])) {
        SubsequenceOfTail(Present(names[1..], code), names);
      }
    }
  }

  lemma {:induction false} SubsequenceOfTail<T>(xs: seq<T>, ys: seq<T>)
    requires ys != [] && IsSubsequence(xs, ys[1..])
    ensures IsSubsequence(xs, ys)
    decreases |ys|, 0
  {
    if xs != [] && xs[0] == ys[0] {
      SubsequenceDropFirst(xs, ys[1..]);
    }
  }

  lemma {:induction false} SubsequenceDropFirst<T>(xs: seq<T>, ys: seq<T>)
    requires xs != [] && IsSubsequence(xs, ys)
    ensures IsSubsequence(xs[1..], ys)
    decreases |ys|, 1
  {
    if xs[0] != ys[0] {
      SubsequenceDropFirst(xs, ys[1..]);
    }
    SubsequenceOfTail(xs[1..], ys);
  }

  /** Every element of a subsequence is an element of the whole. */
  lemma {:induction false} SubsequenceMembers<T>(xs: seq<T>, ys: seq<T>, x: T)
    requires IsSubsequence(xs, ys) && x in xs
    ensures x in ys
    decreases |ys|
  {
    if xs[0] == ys[0] {
      if x != xs[0] {
        assert x in xs[1..];
        SubsequenceMembers(xs[1..], ys[1..], x);
      }
    } else {
      SubsequenceMembers(xs, ys[1..], x);
    }
  }

  /** A subsequence of a list without repetitions has no repetitions. */
  lemma {:induction false} SubsequenceDistinct<T>(xs: seq<T>, ys: seq<T>)
    requires IsSubsequence(xs, ys) && Distinct(ys)
    ensures Distinct(xs)
    decreases |ys|
  {
    if xs != [] {
      if xs[0] == ys[0] {
        SubsequenceDistinct(xs[1..], ys[1..]);
        forall j | 0 < j < |xs| ensures xs[0] != xs[j] {
          SubsequenceMembers(xs[1..], ys[1..], xs[j]);
        }
      } else {
        SubsequenceDistinct(xs, ys[1..]);
      }
    }
  }

  lemma WhitelistDistinct()
    ensures Distinct(Whitelist)
  {
    forall i, j | 0 <= i < j < |Whitelist| ensures Whitelist[i] != Whitelist[j] {
      assert i in {0, 1, 2, 3, 4, 5, 6, 7} && j in {0, 1, 2, 3, 4, 5, 6, 7};
    }
  }

  /**
    The components a piece of code uses: exactly the whitelisted names whose
    opening tag `<Name` occurs in it, without repetitions and in whitelist order.
  */
  function UsedComponents(code: string): (r: seq<string>)
    ensures forall c :: c in r <==> c in Whitelist && Contains(code, OpeningTag(c))
    ensures IsSubsequence(r, Whitelist)
    ensures Distinct(r)
  {
    var r := Present(Whitelist, code);
    forall c ensures c in r <==> c in Whitelist && Contains(code, OpeningTag(c)) {
      PresentMembers(Whitelist, code, c);
    }
    PresentIsSubsequence(Whitelist, code);
    WhitelistDistinct();
    SubsequenceDistinct(r, Whitelist);
    r
  }
}
