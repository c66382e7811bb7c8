/** The doubly linked list that frames, stacks and tables are built on. */
module Dll {

  /** Data is held by address; 0 is NULL. */
  type Pointer = nat

  class Element {
    var prev: Element?
    var next: Element?
    var data: Pointer

    constructor (data: Pointer, prev: Element?, next: Element?)
      ensures this.data == data && this.prev == prev && this.next == next
    {
      this.data, this.prev, this.next := data, prev, next;
    }
  }

  /** Element i of a chain; null in front of its first and behind its last. */
  function At(es: seq<Element>, i: int): Element? {
    if 0 <= i < |es| then es[i] else null
  }

  // What the elements hold, and the neighbours they should have.

  ghost function PrevsOf(es: seq<Element>): (s: seq<Element?>)
    reads es
    ensures |s| == |es|
  {
    seq(|es|, i requires 0 <= i < |es| reads es => es[i].prev)
  }

  ghost function NextsOf(es: seq<Element>): (s: seq<Element?>)
    reads es
    ensures |s| == |es|
  {
    seq(|es|, i requires 0 <= i < |es| reads es => es[i].next)
  }

  ghost function DataOf(es: seq<Element>): (s: seq<Pointer>)
    reads es
    ensures |s| == |es|
  {
    seq(|es|, i requires 0 <= i < |es| reads es => es[i].data)
  }

  ghost function Prevs(es: seq<Element>): (s: seq<Element?>)
    ensures |s| == |es|
  {
    seq(|es|, i requires 0 <= i < |es| => At(es, i - 1))
  }

  ghost function Nexts(es: seq<Element>): (s: seq<Element?>)
    ensures |s| == |es|
  {
    seq(|es|, i requires 0 <= i < |es| => At(es, i + 1))
  }

  ghost predicate Distinct(es: seq<Element>) {
    forall i, j :: 0 <= i < j < |es| ==> es[i] != es[j]
  }

  /** The elements are different objects, and each knows its neighbours. */
  ghost predicate Chain(es: seq<Element>)
    reads es
  {
    Distinct(es) && PrevsOf(es) == Prevs(es) && NextsOf(es) == Nexts(es)
  }

  /** The sequence with e put in at place k, and with place k taken out. */
  ghost function Inserted<T>(s: seq<T>, k: nat, e: T): (r: seq<T>)
    requires k <= |s|
    ensures |r| == |s| + 1
  {
    s[..k] + [e] + s[k..]
  }

  ghost function Removed<T>(s: seq<T>, k: nat): (r: seq<T>)
    requires k < |s|
    ensures |r| == |s| - 1
  {
    s[..k] + s[k + 1..]
  }

  /** Place k changed, if there is such a place. */
  ghost function With<T>(s: seq<T>, k: int, e: T): (r: seq<T>)
    ensures |r| == |s|
  {
    if 0 <= k < |s| then s[k := e] else s
  }

  lemma InsertedElement<T>(s: seq<T>, k: nat, e: T, i: nat)
    requires k <= |s| && i <= |s|
    ensures Inserted(s, k, e)[i] == if i < k then s[i] else if i == k then e else s[i - 1]
  {
  }

  lemma RemovedElement<T>(s: seq<T>, k: nat, i: nat)
    requires k < |s| && i < |s| - 1
    ensures Removed(s, k)[i] == if i < k then s[i] else s[i + 1]
  {
  }

  // ----- linking in -----

  lemma InsertPrev(es: seq<Element>, k: nat, e: Element)
    requires k <= |es| && PrevsOf(es) == With(Prevs(es), k, e) && e.prev == At(es, k - 1)
    ensures PrevsOf(Inserted(es, k, e)) == Prevs(Inserted(es, k, e))
  {
    var r := Inserted(es, k, e);
    forall i | 0 <= i < |r| ensures r[i].prev == At(r, i - 1) {
      InsertedElement(es, k, e, i);
      if i > 0 { InsertedElement(es, k, e, i - 1); }
      if i < k { assert es[i].prev == PrevsOf(es)[i]; } else if i > k { assert es[i - 1].prev == PrevsOf(es)[i - 1]; }
    }
  }

  lemma InsertNext(es: seq<Element>, k: nat, e: Element)
    requires k <= |es| && NextsOf(es) == With(Nexts(es), k - 1, e) && e.next == At(es, k)
    ensures NextsOf(Inserted(es, k, e)) == Nexts(Inserted(es, k, e))
  {
    var r := Inserted(es, k, e);
    forall i | 0 <= i < |r| ensures r[i].next == At(r, i + 1) {
      InsertedElement(es, k, e, i);
      if i < |es| { InsertedElement(es, k, e, i + 1); }
      if i < k { assert es[i].next == NextsOf(es)[i]; } else if i > k { assert es[i - 1].next == NextsOf(es)[i - 1]; }
    }
  }

  /** Linking e in at place k, by changing its neighbours and nothing else, makes a chain again. */
  lemma InsertKeeps(es: seq<Element>, k: nat, e: Element)
    requires k <= |es| && e !in es && Distinct(es)
    requires PrevsOf(es) == With(Prevs(es), k, e) && NextsOf(es) == With(Nexts(es), k - 1, e)
    requires e.prev == At(es, k - 1) && e.next == At(es, k)
    ensures Chain(Inserted(es, k, e))
    ensures DataOf(Inserted(es, k, e)) == Inserted(DataOf(es), k, e.data)
  {
    hide PrevsOf, NextsOf, Prevs, Nexts;
    InsertPrev(es, k, e);
    InsertNext(es, k, e);
    var r := Inserted(es, k, e);
    forall i | 0 <= i < |r| ensures r[i].data == Inserted(DataOf(es), k, e.data)[i] {
      InsertedElement(es, k, e, i);
      InsertedElement(DataOf(es), k, e.data, i);
    }
    forall i, j | 0 <= i < j < |r| ensures r[i] != r[j] {
      InsertedElement(es, k, e, i);
      InsertedElement(es, k, e, j);
    }
  }

  // ----- linking out -----

  /** Links p, in which place k does not matter, skip the element that is taken out. */
  lemma SkipsPrev(es: seq<Element>, p: seq<Element?>, k: nat, j: nat)
    requires |p| == |es| && k < |es| && j < |es| && j != k && With(p, k, null) == With(With(Prevs(es), k + 1, At(es, k - 1)), k, null)
    ensures p[j] == if j == k + 1 then At(es, k - 1) else At(es, j - 1)
  {
    assert p[j] == With(p, k, null)[j];
  }

  lemma SkipsNext(es: seq<Element>, n: seq<Element?>, k: nat, j: nat)
    requires |n| == |es| && k < |es| && j < |es| && j != k && With(n, k, null) == With(With(Nexts(es), k - 1, At(es, k + 1)), k, null)
    ensures n[j] == if j == k - 1 then At(es, k + 1) else At(es, j + 1)
  {
    assert n[j] == With(n, k, null)[j];
  }

  lemma RemovePrev(es: seq<Element>, k: nat)
    requires k < |es| && With(PrevsOf(es), k, null) == With(With(Prevs(es), k + 1, At(es, k - 1)), k, null)
    ensures PrevsOf(Removed(es, k)) == Prevs(Removed(es, k))
  {
    var r := Removed(es, k);
    forall i | 0 <= i < |r| ensures r[i].prev == At(r, i - 1) {
      hide With, Prevs, Removed;
      RemovedElement(es, k, i);
      if i > 0 { RemovedElement(es, k, i - 1); }
      var j := if i < k then i else i + 1;
      assert r[i].prev == PrevsOf(es)[j];
      SkipsPrev(es, PrevsOf(es), k, j);
    }
  }

  lemma RemoveNext(es: seq<Element>, k: nat)
    requires k < |es| && With(NextsOf(es), k, null) == With(With(Nexts(es), k - 1, At(es, k + 1)), k, null)
    ensures NextsOf(Removed(es, k)) == Nexts(Removed(es, k))
  {
    var r := Removed(es, k);
    forall i | 0 <= i < |r| ensures r[i].next == At(r, i + 1) {
      hide With, Nexts, Removed;
      RemovedElement(es, k, i);
      if i < |r| - 1 { RemovedElement(es, k, i + 1); }
      var j := if i < k then i else i + 1;
      assert r[i].next == NextsOf(es)[j];
      SkipsNext(es, NextsOf(es), k, j);
    }
  }

  /** Taking place k out, by changing its neighbours and nothing else, makes a chain again.  Where the
      removed element itself points does not matter. */
  lemma RemoveKeeps(es: seq<Element>, k: nat)
    requires k < |es| && Distinct(es)
    requires With(PrevsOf(es), k, null) == With(With(Prevs(es), k + 1, At(es, k - 1)), k, null)
    requires With(NextsOf(es), k, null) == With(With(Nexts(es), k - 1, At(es, k + 1)), k, null)
    ensures Chain(Removed(es, k))
    ensures DataOf(Removed(es, k)) == Removed(DataOf(es), k)
  {
    hide PrevsOf, NextsOf, Prevs, Nexts;
    RemovePrev(es, k);
    RemoveNext(es, k);
    var r := Removed(es, k);
    forall i | 0 <= i < |r| ensures r[i].data == Removed(DataOf(es), k)[i] {
      RemovedElement(es, k, i);
      RemovedElement(DataOf(es), k, i);
    }
    forall i, j | 0 <= i < j < |r| ensures r[i] != r[j] {
      RemovedElement(es, k, i);
      RemovedElement(es, k, j);
    }
  }

  lemma RemovedEnds(es: seq<Element>, k: nat)
    requires k < |es|
    ensures At(Removed(es, k), 0) == if k == 0 then At(es, 1) else At(es, 0)
    ensures At(Removed(es, k), |es| - 2) == if k == |es| - 1 then At(es, |es| - 2) else At(es, |es| - 1)
  {
  }

  class Dll {
    var size: int
    var head: Element?
    var tail: Element?
    ghost var elements: seq<Element>

    ghost predicate Valid()
      reads this, elements
    {
      size == |elements| && head == At(elements, 0) && tail == At(elements, |elements| - 1) && Chain(elements)
    }

    /** The data from head to tail. */
    ghost function Contents(): seq<Pointer>
      reads this, elements
    {
      DataOf(elements)
    }

    constructor ()
      ensures Valid() && elements == []
    {
      size, head, tail, elements := 0, null, null, [];
    }

    method Prepend(data: Pointer) returns (e: Element)
      requires Valid()
      modifies this, elements
      ensures Valid() && fresh(e) && elements == Inserted(old(elements), 0, e)
      ensures Contents() == Inserted(old(Contents()), 0, data)
    {
      ghost var es, d := elements, Contents();
      e := new Element(data, null, head);
      if tail == null { tail := e; }
      if head != null { head.prev := e; }
      head := e;
      size := size + 1;
      elements := Inserted(es, 0, e);
      assert PrevsOf(es) == With(Prevs(es), 0, e) && NextsOf(es) == With(Nexts(es), -1, e) && DataOf(es) == d;
      InsertKeeps(es, 0, e);
    }

    method Append(data: Pointer) returns (e: Element)
      requires Valid()
      modifies this, elements
      ensures Valid() && fresh(e) && elements == Inserted(old(elements), |old(elements)|, e)
      ensures Contents() == Inserted(old(Contents()), |old(elements)|, data)
    {
      ghost var es, d := elements, Contents();
      e := new Element(data, tail, null);
      if head == null { head := e; }
      if tail != null { tail.next := e; }
      tail := e;
      size := size + 1;
      elements := Inserted(es, |es|, e);
      assert PrevsOf(es) == With(Prevs(es), |es|, e) && NextsOf(es) == With(Nexts(es), |es| - 1, e) && DataOf(es) == d;
      InsertKeeps(es, |es|, e);
    }

    /** In front of element k; null stands for the head of the list. */
    method InsertBefore(before: Element?, data: Pointer, ghost k: nat) returns (e: Element)
      requires Valid() && k <= |elements| && (if before == null then k == 0 else before == At(elements, k))
      modifies this, elements
      ensures Valid() && fresh(e) && elements == Inserted(old(elements), k, e)
      ensures Contents() == Inserted(old(Contents()), k, data)
    {
      if before == null {
        e := Prepend(data);
        return;
      }
      ghost var es, d := elements, Contents();
      LinksAt(es, k);
      e := new Element(data, before.prev, before);
      if before.prev != null { before.prev.next := e; }
      before.prev := e;
      if before == head { head := e; }
      size := size + 1;
      elements := Inserted(es, k, e);
      assert PrevsOf(es) == With(Prevs(es), k, e) && NextsOf(es) == With(Nexts(es), k - 1, e) && DataOf(es) == d;
      InsertKeeps(es, k, e);
    }

    /** Behind element k - 1; null stands for the tail of the list. */
    method InsertAfter(after: Element?, data: Pointer, ghost k: nat) returns (e: Element)
      requires Valid() && k <= |elements|
      requires if after == null then k == |elements| else k > 0 && after == At(elements, k - 1)
      modifies this, elements
      ensures Valid() && fresh(e) && elements == Inserted(old(elements), k, e)
      ensures Contents() == Inserted(old(Contents()), k, data)
    {
      if after == null {
        e := Append(data);
        return;
      }
      e := InsertBehind(after, data, k);
    }

    method InsertBehind(after: Element, data: Pointer, ghost k: nat) returns (e: Element)
      requires Valid() && 0 < k <= |elements| && elements[k - 1] == after
      modifies this, elements
      ensures Valid() && fresh(e) && elements == Inserted(old(elements), k, e)
      ensures Contents() == Inserted(old(Contents()), k, data)
    {
      hide Inserted, DataOf, PrevsOf, NextsOf, Prevs, Nexts, With, Distinct;
      ghost var es := elements;
      e := new Element(data, after, after.next);
      LinkBehind(after, e, k);
      if after == tail { tail := e; }
      size := size + 1;
      elements := Inserted(es, k, e);
      InsertKeeps(es, k, e);
      InsertedEnds(es, k, e);
    }

    /** The neighbours of a new element that comes behind element k - 1. */
    method LinkBehind(after: Element, e: Element, ghost k: nat)
      requires Chain(elements) && 0 < k <= |elements| && elements[k - 1] == after && e !in elements
      requires e.prev == after && e.next == after.next
      modifies elements
      ensures PrevsOf(elements) == With(Prevs(elements), k, e) && NextsOf(elements) == With(Nexts(elements), k - 1, e)
      ensures DataOf(elements) == old(DataOf(elements)) && e.prev == At(elements, k - 1) && e.next == At(elements, k)
      ensures (after == At(elements, |elements| - 1)) == (k == |elements|)
    {
      LinksAt(elements, k - 1);
      DistinctEnds(elements, k - 1);
      ghost var p, n := Prevs(elements), Nexts(elements);
      if after.next != null {
        after.next.prev := e;
        assert PrevsOf(elements) == p[k := e];
      }
      after.next := e;
      assert NextsOf(elements) == n[k - 1 := e];
    }

    /** Take element k out. */
    method Remove(element: Element, ghost k: nat)
      requires Valid() && k < |elements| && elements[k] == element
      modifies this, elements
      ensures Valid() && elements == Removed(old(elements), k)
      ensures Contents() == Removed(old(Contents()), k)
    {
      hide PrevsOf, NextsOf, DataOf, Prevs, Nexts, With, Removed, Distinct;
      ghost var es := elements;
      size := size - 1;
      if size == 0 {
        head := null;
        tail := null;
        OnlyElement(es);
      } else {
        Unlink(element, k);
      }
      elements := Removed(es, k);
      RemovedEnds(es, k);
      RemoveKeeps(es, k);
    }

    /** Close the gap where element k was, in a list of two or more. */
    method Unlink(element: Element, ghost k: nat)
      requires Chain(elements) && head == At(elements, 0) && tail == At(elements, |elements| - 1)
      requires 1 < |elements| && k < |elements| && elements[k] == element
      modifies this`head, this`tail, elements
      ensures With(PrevsOf(elements), k, null) == With(With(Prevs(elements), k + 1, At(elements, k - 1)), k, null)
      ensures With(NextsOf(elements), k, null) == With(With(Nexts(elements), k - 1, At(elements, k + 1)), k, null)
      ensures DataOf(elements) == old(DataOf(elements))
      ensures head == if k == 0 then At(elements, 1) else At(elements, 0)
      ensures tail == if k == |elements| - 1 then At(elements, |elements| - 2) else At(elements, |elements| - 1)
    {
      hide PrevsOf, NextsOf, DataOf, Prevs, Nexts, With, Distinct;
      LinksAt(elements, k);
      assert (element == head <==> k == 0) && (element == tail <==> k == |elements| - 1) by { DistinctEnds(elements, k); }
      if element == head {
        head := head.next;
        CutPrev(head);
      } else if element == tail {
        tail := tail.prev;
        CutNext(tail, k);
      } else {
        Bridge(element, k);
      }
    }

    /** The first element is gone. */
    method CutPrev(second: Element)
      requires Chain(elements) && 1 < |elements| && elements[1] == second
      modifies elements
      ensures With(PrevsOf(elements), 0, null) == With(With(Prevs(elements), 1, At(elements, -1)), 0, null)
      ensures With(NextsOf(elements), 0, null) == With(With(Nexts(elements), -1, At(elements, 1)), 0, null)
      ensures DataOf(elements) == old(DataOf(elements))
    {
      ghost var p, n, d := Prevs(elements), Nexts(elements), DataOf(elements);
      second.prev := null;
      assert PrevsOf(elements) == p[1 := null];
      assert NextsOf(elements) == n && DataOf(elements) == d;
    }

    /** The last element is gone. */
    method CutNext(last: Element, ghost k: nat)
      requires Chain(elements) && 1 < |elements| && k == |elements| - 1 && elements[k - 1] == last
      modifies elements
      ensures With(PrevsOf(elements), k, null) == With(With(Prevs(elements), k + 1, At(elements, k - 1)), k, null)
      ensures With(NextsOf(elements), k, null) == With(With(Nexts(elements), k - 1, At(elements, k + 1)), k, null)
      ensures DataOf(elements) == old(DataOf(elements))
    {
      ghost var p, n, d := Prevs(elements), Nexts(elements), DataOf(elements);
      last.next := null;
      assert NextsOf(elements) == n[k - 1 := null];
      assert PrevsOf(elements) == p && DataOf(elements) == d;
    }

    /** An element in the middle is gone. */
    method Bridge(element: Element, ghost k: nat)
      requires Chain(elements) && 0 < k < |elements| - 1 && elements[k] == element
      modifies elements
      ensures With(PrevsOf(elements), k, null) == With(With(Prevs(elements), k + 1, At(elements, k - 1)), k, null)
      ensures With(NextsOf(elements), k, null) == With(With(Nexts(elements), k - 1, At(elements, k + 1)), k, null)
      ensures DataOf(elements) == old(DataOf(elements))
    {
      ghost var p, n := Prevs(elements), Nexts(elements);
      LinksAt(elements, k);
      element.prev.next := element.next;
      element.next.prev := element.prev;
      assert NextsOf(elements) == n[k - 1 := At(elements, k + 1)];
      assert PrevsOf(elements) == p[k + 1 := At(elements, k - 1)];
    }

    method Push(data: Pointer)
      requires Valid()
      modifies this, elements
      ensures Valid() && Contents() == old(Contents()) + [data]
    {
      var e := InsertAfter(null, data, |elements|);
    }

    /** The data at the tail, which is taken out; NULL if there is none. */
    method Pop() returns (data: Pointer)
      requires Valid()
      modifies this, elements
      ensures Valid()
      ensures if old(elements) == [] then data == 0 && elements == []
              else old(Contents()) == Contents() + [data]
    {
      var e := tail;
      if e == null { return 0; }
      data := e.data;
      Remove(e, |elements| - 1);
    }

    method Top() returns (data: Pointer)
      requires Valid()
      ensures data == if elements == [] then 0 else Contents()[|elements| - 1]
    {
      if tail == null { return 0; }
      data := tail.data;
    }

    /** Element number offset, counted from the head; null for an offset outside the list. */
    method SeekOffset(offset: int) returns (e: Element?)
      requires Valid()
      ensures e == At(elements, offset)
    {
      if offset < 0 || offset >= size { return null; }
      e := head;
      var left := offset;
      while left != 0
        invariant 0 <= left <= offset && e == elements[offset - left]
        decreases left
      {
        LinksAt(elements, offset - left);
        left := left - 1;
        e := e.next;
      }
    }
  }

  lemma InsertedEnds(es: seq<Element>, k: nat, e: Element)
    requires 0 < k <= |es|
    ensures At(Inserted(es, k, e), 0) == At(es, 0)
    ensures At(Inserted(es, k, e), |es|) == if k == |es| then e else At(es, |es| - 1)
  {
  }

  lemma OnlyElement(es: seq<Element>)
    requires |es| == 1
    ensures With(PrevsOf(es), 0, null) == With(With(Prevs(es), 1, At(es, -1)), 0, null)
    ensures With(NextsOf(es), 0, null) == With(With(Nexts(es), -1, At(es, 1)), 0, null)
  {
  }

  lemma DistinctEnds(es: seq<Element>, k: nat)
    requires Distinct(es) && k < |es|
    ensures (es[k] == es[0] <==> k == 0) && (es[k] == es[|es| - 1] <==> k == |es| - 1)
  {
  }

  lemma LinksAt(es: seq<Element>, k: nat)
    requires Chain(es) && k < |es|
    ensures es[k].prev == At(es, k - 1) && es[k].next == At(es, k + 1)
  {
    assert es[k].prev == PrevsOf(es)[k] && es[k].next == NextsOf(es)[k];
  }
}
