// The FIFO of a mutex: a singly linked list between two sentinel elements.
module CvQueue {
  import opened Sequences

  class Element {
    var next: Element?
    var proc: int
    // The queue this element was made for; an element never moves to another.
    ghost var home: Queue?

    constructor ()
      ensures next == null && home == null
    {
      next, home := null, null;
    }
  }

  class Queue {
    const start: Element
    const end: Element
    // All elements in link order, the two sentinels included.
    ghost var nodes: seq<Element>

    ghost predicate Valid()
      reads this, nodes
    {
      && |nodes| >= 2 && nodes[0] == start && nodes[|nodes| - 1] == end
      && (forall i, j :: 0 <= i < j < |nodes| ==> nodes[i] != nodes[j])
      && (forall i :: 0 <= i < |nodes| - 1 ==> nodes[i].next == nodes[i + 1])
      && end.next == null
      && (forall i :: 0 <= i < |nodes| ==> nodes[i].home == this)
    }

    // The queued processes, first in line first.
    ghost function Contents(): (s: seq<int>)
      requires |nodes| >= 2
      reads this, nodes
      ensures |s| == |nodes| - 2
    {
      seq(|nodes| - 2, i requires 0 <= i < |nodes| - 2 reads this, nodes => nodes[i + 1].proc)
    }

    // The process field of the start sentinel is never set; `garbage` is what
    // the allocated memory happens to hold there.
    constructor (garbage: int)
      ensures Valid() && Contents() == [] && fresh(nodes) && start.proc == garbage
    {
      start := new Element();
      end := new Element();
      new;
      start.proc := garbage;
      start.next := end;
      start.home := this;
      end.home := this;
      nodes := [start, end];
    }

    method Append(p: int)
      requires Valid()
      modifies this, nodes
      ensures Valid() && Contents() == old(Contents()) + [p]
      ensures start.proc == old(start.proc)
      ensures forall x :: x in nodes ==> x in old(nodes) || fresh(x)
    {
      var last := start;
      ghost var k := 0;
      while last.next != end
        invariant 0 <= k < |nodes| - 1 && last == nodes[k]
        decreases |nodes| - k
      {
        last := last.next;
        k := k + 1;
      }
      assert nodes[k].next == nodes[k + 1] == nodes[|nodes| - 1];
      var e := new Element();
      e.proc := p;
      e.home := this;
      last.next := e;
      e.next := end;
      nodes := nodes[..k + 1] + [e, end];
    }

    method PopFirst() returns (p: int)
      requires Valid() && Contents() != []
      modifies this, nodes
      ensures Valid() && old(Contents()) == [p] + Contents()
      ensures start.proc == old(start.proc)
      ensures forall x :: x in nodes ==> x in old(nodes)
    {
      assert nodes[0].next == nodes[1] && nodes[1].next == nodes[2];
      var first := start.next;
      p := first.proc;
      start.next := first.next;
      nodes := [start] + nodes[2..];
    }

    method IsEmpty() returns (b: bool)
      requires Valid()
      ensures b <==> Contents() == []
    {
      b := start.next == end;
      assert |nodes| > 2 ==> nodes[1] != end;
    }

    // Unlinks an element that is in the queue.
    method Unlink(item: Element, ghost k: nat)
      requires Valid() && 0 < k < |nodes| - 1 && nodes[k] == item
      modifies this, nodes
      ensures Valid() && Contents() == old(Contents())[..k - 1] + old(Contents())[k..]
      ensures start.proc == old(start.proc)
      ensures forall x :: x in nodes ==> x in old(nodes)
    {
      var i := start;
      ghost var j := 0;
      while i.next != item
        invariant 0 <= j < k && i == nodes[j]
        decreases k - j
      {
        i := i.next;
        j := j + 1;
      }
      assert nodes[j].next == nodes[j + 1] == nodes[k];
      assert nodes[k].next == nodes[k + 1];
      i.next := item.next;
      nodes := nodes[..k] + nodes[k + 1..];
    }

    // Walks the list from the start sentinel and takes out the first element
    // that carries p. The sentinel carries a value too, and must not match.
    method Discard(p: int) returns (found: bool)
      requires Valid() && start.proc != p
      modifies this, nodes
      ensures Valid() && Contents() == RemoveFirst(old(Contents()), p)
      ensures found <==> p in old(Contents())
      ensures start.proc == old(start.proc)
      ensures forall x :: x in nodes ==> x in old(nodes)
    {
      var item := start;
      ghost var k := 0;
      while item != end
        invariant 0 <= k < |nodes| && item == nodes[k]
        invariant forall i :: 0 <= i < k ==> nodes[i].proc != p
        decreases |nodes| - k
      {
        if item.proc == p {
          assert Contents()[k - 1] == p && p !in Contents()[..k - 1];
          RemoveFirstAt(Contents(), k - 1);
          Unlink(item, k);
          return true;
        }
        item := item.next;
        k := k + 1;
      }
      assert p !in Contents();
      RemoveFirstAbsent(Contents(), p);
      return false;
    }
  }

  lemma {:induction false} RemoveFirstAbsent(s: seq<int>, x: int)
    requires x !in s
    ensures RemoveFirst(s, x) == s
  {
    if s != [] {
      RemoveFirstAbsent(s[1..], x);
    }
  }
}
