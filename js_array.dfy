// JavaScript array writes: an index assignment past the end leaves holes,
// and `splice(start, 1)` counts a negative start from the end.

module JsArray {

  /** An array slot: JavaScript arrays can hold holes after an assignment past the end. */
  datatype Slot<T> = Hole | Item(data: T)

  /** `xs[index] = v` on a JavaScript array. */
  function SetAt<T>(xs: seq<Slot<T>>, index: int, v: Slot<T>): (r: seq<Slot<T>>)
    ensures 0 <= index < |xs| ==> r == xs[index := v]
    ensures index >= |xs| ==>
      |r| == index + 1 && r[..|xs|] == xs && r[index] == v
      && forall j :: |xs| <= j < index ==> r[j] == Hole
    ensures index < 0 ==> r == xs
  {
    if index < 0 then xs
    else if index < |xs| then xs[index := v]
    else xs + seq(index - |xs|, _ => Hole) + [v]
  }

  /** The position `splice(start, ...)` starts at: a negative start counts from the end. */
  function SpliceStart(len: nat, start: int): (k: nat)
    ensures k <= len
    ensures 0 <= start <= len ==> k == start
    ensures start > len ==> k == len
    ensures start < 0 && len + start >= 0 ==> k == len + start
    ensures start < 0 && len + start < 0 ==> k == 0
  {
    if start < 0 then (if len + start < 0 then 0 else len + start)
    else if start > len then len else start
  }

  /** `xs.splice(start, 1)` */
  function SpliceOne<T>(xs: seq<Slot<T>>, start: int): (r: seq<Slot<T>>)
    ensures var k := SpliceStart(|xs|, start);
      (k < |xs| ==> r == xs[..k] + xs[k + 1..]) && (k == |xs| ==> r == xs)
  {
    var k := SpliceStart(|xs|, start);
    if k < |xs| then xs[..k] + xs[k + 1..] else xs
  }

  /** Removing an index in range drops exactly that element and shifts the later ones left. */
  lemma SpliceOneRemovesIndex<T>(xs: seq<Slot<T>>, i: int)
    requires 0 <= i < |xs|
    ensures var r := SpliceOne(xs, i);
      |r| == |xs| - 1
      && (forall j :: 0 <= j < i ==> r[j] == xs[j])
      && (forall j :: i <= j < |r| ==> r[j] == xs[j + 1])
      && multiset(r) + multiset{xs[i]} == multiset(xs)
  {
    assert xs == xs[..i] + [xs[i]] + xs[i + 1..];
  }

  /** `splice(-1, 1)` drops the last element; an index past the end changes nothing. */
  lemma SpliceOneEdges<T>(xs: seq<Slot<T>>, i: int)
    ensures |xs| > 0 ==> SpliceOne(xs, -1) == xs[..|xs| - 1]
    ensures i >= |xs| ==> SpliceOne(xs, i) == xs
  {
  }

  /** Adding then removing the last item restores the list. */
  lemma AddThenRemoveLast<T>(xs: seq<Slot<T>>, data: T)
    ensures SpliceOne(xs + [Item(data)], |xs|) == xs
    ensures SpliceOne(xs + [Item(data)], -1) == xs
  {
    assert (xs + [Item(data)])[..|xs|] == xs;
  }

  /** Updating an index in range keeps the length and every other element. */
  lemma SetAtInRange<T>(xs: seq<Slot<T>>, i: int, v: Slot<T>)
    requires 0 <= i < |xs|
    ensures |SetAt(xs, i, v)| == |xs| && SetAt(xs, i, v)[i] == v
    ensures forall j :: 0 <= j < |xs| && j != i ==> SetAt(xs, i, v)[j] == xs[j]
  {
  }
}
