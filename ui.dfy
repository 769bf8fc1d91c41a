/** Ordering of the names offered to the interactive context and namespace
    pickers: sort ascending, optionally lift the current name to the front,
    and place the picker's cursor on the current name. */
module Ui {
  import opened StringOrder

  /** Position of the first element of `s` equal to `x`, or |s| when `x`
      does not occur in `s`. */
  function FirstIndex(s: seq<string>, x: string): (i: nat)
    ensures i <= |s|
    ensures i < |s| <==> x in s
    ensures i < |s| ==> s[i] == x
    ensures forall k :: 0 <= k < i ==> s[k] != x
  {
    if s == [] then 0
    else if s[0] == x then 0
    else 1 + FirstIndex(s[1..], x)
  }

  /** Removing one element from a sorted sequence leaves it sorted. */
  lemma SortedWithout(s: seq<string>, i: nat)
    requires Sorted(s) && i < |s|
    ensures Sorted(s[..i] + s[i + 1..])
  {
    var t := s[..i] + s[i + 1..];
    forall k, l | 0 <= k < l < |t| ensures AtMost(t[k], t[l]) {
      var k' := if k < i then k else k + 1;
      var l' := if l < i then l else l + 1;
      assert t[k] == s[k'] && t[l] == s[l'];
    }
  }

  /** Takes the first occurrence of `x` out of `s` and puts it in front.
      On a sorted `s` the rest is `s` less one `x`, still sorted. */
  function LiftFirst(s: seq<string>, x: string): (r: seq<string>)
    requires x in s
    ensures |r| == |s| && r[0] == x
    ensures multiset(r) == multiset(s)
    ensures multiset(r[1..]) == multiset(s) - multiset{x}
    ensures Sorted(s) ==> Sorted(r[1..])
  {
    var i := FirstIndex(s, x);
    assert s == s[..i] + [s[i]] + s[i + 1..];
    assert Sorted(s) ==> Sorted(s[..i] + s[i + 1..]) by {
      if Sorted(s) { SortedWithout(s, i); }
    }
    var r := [x] + (s[..i] + s[i + 1..]);
    assert r[1..] == s[..i] + s[i + 1..];
    r
  }

  /** The order in which the picker lists `names`: ascending, and, when
      `prioritizeCurrent` is set and `current` is a non-empty name that
      occurs, with the first occurrence of `current` moved to the front. */
  function Order(names: seq<string>, current: string, prioritizeCurrent: bool): (r: seq<string>)
    ensures multiset(r) == multiset(names)
    ensures names == [] ==> r == []
    ensures !(prioritizeCurrent && current != "" && current in names) ==> Sorted(r)
    ensures prioritizeCurrent && current != "" && current in names ==>
      r[0] == current && Sorted(r[1..]) && multiset(r[1..]) == multiset(names) - multiset{current}
  {
    if |names| == 0 then names
    else
      var s := SortedCopy(names);
      assert current in s <==> current in names by {
        assert current in s <==> current in multiset(s);
      }
      if prioritizeCurrent && current != "" && current in s then LiftFirst(s, current) else s
  }

  /** The three properties of Order single it out: any sequence that is a
      permutation of `names` and is either sorted, or has `current` in front
      of a sorted rest (exactly when `current` is to be lifted), is Order's
      result. */
  lemma OrderCharacterized(names: seq<string>, current: string, prioritizeCurrent: bool, r: seq<string>)
    requires multiset(r) == multiset(names)
    requires !(prioritizeCurrent && current != "" && current in names) ==> Sorted(r)
    requires prioritizeCurrent && current != "" && current in names ==>
      |r| > 0 && r[0] == current && Sorted(r[1..])
    ensures r == Order(names, current, prioritizeCurrent)
  {
    var o := Order(names, current, prioritizeCurrent);
    if prioritizeCurrent && current != "" && current in names {
      assert r == [r[0]] + r[1..];
      assert multiset(r[1..]) == multiset(names) - multiset{current};
      SortedUnique(r[1..], o[1..]);
      assert o == [o[0]] + o[1..];
    } else {
      SortedUnique(r, o);
    }
  }

  /** Searches `s` for `x` from the front, stopping at the first match. */
  method FindFirst(s: seq<string>, x: string) returns (i: nat)
    ensures i == FirstIndex(s, x)
  {
    i := 0;
    while i < |s| && s[i] != x
      invariant i <= |s|
      invariant forall k :: 0 <= k < i ==> s[k] != x
    {
      i := i + 1;
    }
  }

  /** Swaps the neighbours a[j - 1] and a[j]. */
  method SwapAdjacent(a: array<string>, j: nat)
    requires 0 < j < a.Length
    modifies a
    ensures a[j - 1] == old(a[j]) && a[j] == old(a[j - 1])
    ensures forall m :: 0 <= m < a.Length && m != j - 1 && m != j ==> a[m] == old(a[m])
    ensures multiset(a[..]) == multiset(old(a[..]))
  {
    a[j - 1], a[j] := a[j], a[j - 1];
  }

  /** One insertion step: with a[..i] sorted, moves a[i] down past the
      elements that sort after it, so that a[..i + 1] is sorted. */
  method InsertStep(a: array<string>, i: nat)
    requires i < a.Length
    requires forall k, l :: 0 <= k < l < i ==> AtMost(a[k], a[l])
    modifies a
    ensures forall k, l :: 0 <= k < l <= i ==> AtMost(a[k], a[l])
    ensures multiset(a[..]) == multiset(old(a[..]))
  {
    var j := i;
    while j > 0 && !AtMost(a[j - 1], a[j])
      invariant 0 <= j <= i
      invariant forall k, l :: 0 <= k < l <= i && l != j ==> AtMost(a[k], a[l])
      invariant multiset(a[..]) == multiset(old(a[..]))
    {
      AtMostTotal(a[j - 1], a[j]);
      SwapAdjacent(a, j);
      j := j - 1;
    }
    forall k | 0 <= k < j ensures AtMost(a[k], a[j]) {
      if k < j - 1 {
        AtMostTransitive(a[k], a[j - 1], a[j]);
      }
    }
  }

  /** Sorts `a` ascending in place (the role of sort.Strings), by insertion. */
  method SortStrings(a: array<string>)
    modifies a
    ensures Sorted(a[..])
    ensures multiset(a[..]) == multiset(old(a[..]))
  {
    var i := 0;
    while i < a.Length
      invariant 0 <= i <= a.Length
      invariant forall k, l :: 0 <= k < l < i ==> AtMost(a[k], a[l])
      invariant multiset(a[..]) == multiset(old(a[..]))
    {
      InsertStep(a, i);
      i := i + 1;
    }
  }

  /** Takes a[i] out of its position and puts it at the front; the elements
      before it move up one place. */
  method MoveToFront(a: array<string>, i: nat)
    requires i < a.Length
    modifies a
    ensures a[..] == [old(a[i])] + (old(a[..i]) + old(a[i + 1..]))
  {
    var x := a[i];
    var k := i;
    while k > 0
      invariant 0 <= k <= i
      invariant forall m :: 0 <= m < k ==> a[m] == old(a[m])
      invariant forall m :: k < m <= i ==> a[m] == old(a[m - 1])
      invariant forall m :: i < m < a.Length ==> a[m] == old(a[m])
    {
      a[k] := a[k - 1];
      k := k - 1;
    }
    a[0] := x;
    assert a[..] == [old(a[i])] + (old(a[..i]) + old(a[i + 1..]));
  }

  /** A fresh array holding `names` in ascending order; `names` itself is
      not modified. */
  method SortedArrayCopy(names: array<string>) returns (work: array<string>)
    ensures fresh(work)
    ensures work[..] == SortedCopy(names[..])
  {
    work := new string[names.Length];
    forall k | 0 <= k < names.Length {
      work[k] := names[k];
    }
    assert work[..] == names[..];
    SortStrings(work);
    SortedPermutationIsSortedCopy(names[..], work[..]);
  }

  /** The search-and-splice loop: finds the first occurrence of `current`
      in `a` and, if there is one, moves it to the front. */
  method LiftCurrent(a: array<string>, current: string) returns (found: bool)
    modifies a
    ensures found <==> current in old(a[..])
    ensures a[..] == if found then LiftFirst(old(a[..]), current) else old(a[..])
  {
    ghost var s := a[..];
    var i := FindFirst(a[..], current);
    found := i < a.Length;
    if found {
      MoveToFront(a, i);
      assert a[..] == [s[i]] + (s[..i] + s[i + 1..]);
    }
  }

  /** The ordering shared by SortContexts and SortNamespaces: a fresh copy
      of `names` is sorted and, if asked, the current name is lifted to the
      front; `names` itself is not modified. `notFound` is set when the
      current name was to be lifted but does not occur (the source then
      prints a note). */
  method SortPrioritized(names: array<string>, current: string, prioritizeCurrent: bool)
    returns (sorted: seq<string>, notFound: bool)
    ensures sorted == Order(names[..], current, prioritizeCurrent)
    ensures notFound <==> prioritizeCurrent && current != "" && names.Length > 0 && current !in names[..]
  {
    if names.Length == 0 {
      return names[..], false;
    }
    var work := SortedArrayCopy(names);
    assert current in work[..] <==> current in names[..] by {
      assert current in work[..] <==> current in multiset(work[..]);
    }
    notFound := false;
    if prioritizeCurrent && current != "" {
      var found := LiftCurrent(work, current);
      notFound := !found;
    }
    sorted := work[..];
  }

  /** SortContexts: the order in which context names are offered. */
  method SortContexts(contextNames: array<string>, currentContext: string, prioritizeCurrent: bool)
    returns (sorted: seq<string>, notFound: bool)
    ensures sorted == Order(contextNames[..], currentContext, prioritizeCurrent)
    ensures notFound <==> prioritizeCurrent && currentContext != "" && contextNames.Length > 0
                          && currentContext !in contextNames[..]
  {
    sorted, notFound := SortPrioritized(contextNames, currentContext, prioritizeCurrent);
  }

  /** SortNamespaces: the order in which namespace names are offered. */
  method SortNamespaces(namespaces: array<string>, currentNamespace: string, prioritizeCurrent: bool)
    returns (sorted: seq<string>, notFound: bool)
    ensures sorted == Order(namespaces[..], currentNamespace, prioritizeCurrent)
    ensures notFound <==> prioritizeCurrent && currentNamespace != "" && namespaces.Length > 0
                          && currentNamespace !in namespaces[..]
  {
    sorted, notFound := SortPrioritized(namespaces, currentNamespace, prioritizeCurrent);
  }

  /** Initial cursor of a picker over `items`: the first position holding
      `current`, or 0 when it is absent. `note` is set exactly when the
      source prints its "not found, defaulting to first item" note. */
  method CursorPosition(items: seq<string>, current: string) returns (cursorPos: nat, note: bool)
    ensures items == [] ==> cursorPos == 0
    ensures items != [] ==> cursorPos < |items|
    ensures current in items ==> items[cursorPos] == current
    ensures forall k :: 0 <= k < cursorPos ==> items[k] != current
    ensures current !in items ==> cursorPos == 0
    ensures note <==> current != "" && |items| > 0 && current !in items
  {
    cursorPos := 0;
    var i := FindFirst(items, current);
    if i < |items| {
      cursorPos := i;
    }
    note := cursorPos == 0 && current != "" && |items| > 0 && items[0] != current;
  }

  /** Cursor of the context picker (CreateContextSelector). */
  method ContextSelectorCursor(contexts: seq<string>, currentContext: string) returns (cursorPos: nat, note: bool)
    ensures contexts == [] ==> cursorPos == 0
    ensures contexts != [] ==> cursorPos < |contexts|
    ensures currentContext in contexts ==> contexts[cursorPos] == currentContext
    ensures forall k :: 0 <= k < cursorPos ==> contexts[k] != currentContext
    ensures currentContext !in contexts ==> cursorPos == 0
    ensures note <==> currentContext != "" && |contexts| > 0 && currentContext !in contexts
  {
    cursorPos, note := CursorPosition(contexts, currentContext);
  }

  /** Cursor of the namespace picker (CreateNamespaceSelector). */
  method NamespaceSelectorCursor(namespaces: seq<string>, currentNamespace: string) returns (cursorPos: nat, note: bool)
    ensures namespaces == [] ==> cursorPos == 0
    ensures namespaces != [] ==> cursorPos < |namespaces|
    ensures currentNamespace in namespaces ==> namespaces[cursorPos] == currentNamespace
    ensures forall k :: 0 <= k < cursorPos ==> namespaces[k] != currentNamespace
    ensures currentNamespace !in namespaces ==> cursorPos == 0
    ensures note <==> currentNamespace != "" && |namespaces| > 0 && currentNamespace !in namespaces
  {
    cursorPos, note := CursorPosition(namespaces, currentNamespace);
  }
}
