/**
 common/linked_list.c: intrusive circular doubly linked lists.  A ring is the
 sequence of its nodes in the order of `next`; a list is a ring whose first
 node is the list head, so its elements are a sequence too.
 */
module LinkedList {
  import opened Sequences

  class Node {
    var prev: Node?
    var next: Node?

    constructor ()
      ensures prev == null && next == null
    {
      prev, next := null, null;
    }
  }

  ghost predicate Linked(a: Node, b: Node)
    reads a, b
  {
    a.next == b && b.prev == a
  }

  ghost predicate Apart(a: seq<Node>, b: seq<Node>) {
    forall i, j :: 0 <= i < |a| && 0 <= j < |b| ==> a[i] != b[j]
  }

  /** Each node is linked with its successor. */
  ghost predicate Chain(nodes: seq<Node>)
    reads nodes
  {
    forall i, j :: 0 <= i < |nodes| && j == i + 1 < |nodes| ==> Linked(nodes[i], nodes[j])
  }

  /** Following `next` from any node visits the others in order and comes back;
      `prev` leads the other way. */
  ghost predicate Ring(nodes: seq<Node>)
    reads nodes
  {
    nodes != [] && Distinct(nodes) && Chain(nodes) && Linked(nodes[|nodes| - 1], nodes[0])
  }

  /** The list with the given head holds the given elements. */
  ghost predicate Holds(list: Node, elems: seq<Node>)
    reads list, elems
  {
    Ring([list] + elems)
  }

  /** linked_list_init */
  method Init(list: Node)
    modifies list
    ensures Holds(list, []) && list.next == list == list.prev
  {
    list.next := list;
    list.prev := list;
  }

  /** linked_list_insert: the element goes to the front. */
  method Insert(list: Node, elem: Node, ghost elems: seq<Node>)
    requires Holds(list, elems) && elem != list && elem !in elems
    requires elem.prev == elem.next
    modifies list, elem, elems
    ensures Holds(list, [elem] + elems)
  {
    ghost var r, s := [list] + elems, [list] + ([elem] + elems);
    ghost var n := |r|;
    assert list == r[0] && list.next == r[if n == 1 then 0 else 1];
    assert Distinct(s) by {
      forall i, j | 0 <= i < j < |s| ensures s[i] != s[j] {
        assert i > 1 ==> s[i] == r[i - 1] && s[j] == r[j - 1];
        assert j > 1 ==> s[j] == r[j - 1] && s[j] == elems[j - 2];
      }
    }
    elem.prev := list;
    elem.next := list.next;
    list.next := elem;
    elem.next.prev := elem;
    forall i, j | 0 <= i < |s| && j == i + 1 < |s| ensures Linked(s[i], s[j]) {
      if i > 1 {
        assert s[i] == r[i - 1] && s[j] == r[j - 1] && old(Linked(r[i - 1], r[j - 1]));
      }
    }
    assert s[|s| - 1] == if n == 1 then elem else r[n - 1];
  }

  /** linked_list_remove: the node leaves its ring, whatever its place. */
  method Remove(elem: Node, ghost ring: seq<Node>, ghost k: nat)
    requires Ring(ring) && k < |ring| && ring[k] == elem
    modifies ring
    ensures |ring| > 1 ==> Ring(ring[..k] + ring[k + 1..])
    ensures elem.next == null && elem.prev == null
  {
    ghost var n := |ring|;
    ghost var b, a := if k == 0 then n - 1 else k - 1, if k + 1 == n then 0 else k + 1;
    assert Linked(ring[b], elem) && Linked(elem, ring[a]);
    elem.prev.next := elem.next;
    elem.next.prev := elem.prev;
    elem.next := null;
    elem.prev := null;
    if n > 1 {
      ghost var s := ring[..k] + ring[k + 1..];
      assert Linked(ring[b], ring[a]);
      forall i, j | 0 <= i < |s| && j == i + 1 < |s| ensures Linked(s[i], s[j]) {
        var i', j' := if i < k then i else i + 1, if j < k then j else j + 1;
        assert s[i] == ring[i'] && s[j] == ring[j'];
        if j' == i' + 1 { assert old(Linked(ring[i'], ring[j'])); }
      }
    }
  }

  /** linked_list_empty */
  method Empty(list: Node, ghost elems: seq<Node>) returns (r: bool)
    requires Holds(list, elems)
    ensures r <==> elems == []
  {
    ghost var ring := [list] + elems;
    assert list == ring[0] && list.next == ring[if elems == [] then 0 else 1];
    r := list.next == list;
  }

  lemma TakenDistinct(target: Node, source: Node, ts: seq<Node>, ss: seq<Node>)
    requires Distinct([target] + ts) && Distinct([source] + ss) && Apart([target] + ts, [source] + ss)
    ensures Distinct([target] + (ss + ts))
  {
    var t, s, r := [target] + ts, [source] + ss, [target] + (ss + ts);
    var n := |s|;
    forall i, j | 0 <= i < j < |r| ensures r[i] != r[j] {
      assert 1 <= i < n ==> r[i] == s[i];
      assert 1 <= j < n ==> r[j] == s[j];
      assert n <= i ==> r[i] == t[i - n + 1];
      assert n <= j ==> r[j] == t[j - n + 1];
      assert i == 0 ==> r[i] == t[0];
    }
  }

  /** linked_list_take: all elements of source move to the front of target. */
  method Take(target: Node, source: Node, ghost ts: seq<Node>, ghost ss: seq<Node>)
    requires Holds(target, ts) && Holds(source, ss)
    requires Apart([target] + ts, [source] + ss)
    modifies target, source, ts, ss
    ensures Holds(target, ss + ts) && Holds(source, [])
  {
    var empty := Empty(source, ss);
    if empty {
      assert ss + ts == ts;
      return;
    }
    ghost var t, s, r := [target] + ts, [source] + ss, [target] + (ss + ts);
    ghost var m, n := |t|, |s|;
    TakenDistinct(target, source, ts, ss);
    assert t[0] == target && s[0] == source && s[1] == ss[0] && s[n - 1] == ss[n - 2];
    assert Linked(t[0], t[if m == 1 then 0 else 1]) && Linked(s[0], s[1]) && Linked(s[n - 1], s[0]) && Linked(t[m - 1], t[0]);
    assert target.next == t[if m == 1 then 0 else 1] && source.next == s[1] == ss[0] && source.prev == s[n - 1] == ss[n - 2];
    source.next.prev := target;
    source.prev.next := target.next;
    target.next.prev := source.prev;
    target.next := source.next;
    Init(source);
    forall i, j | 0 <= i < |r| && j == i + 1 < |r| ensures Linked(r[i], r[j]) {
      if 1 <= i && j < n {
        assert r[i] == s[i] && r[j] == s[j] && old(Linked(s[i], s[j]));
      } else if i >= n {
        assert r[i] == t[i - n + 1] && r[j] == t[j - n + 1] && old(Linked(t[i - n + 1], t[j - n + 1]));
      }
    }
    assert r[|r| - 1] == if m == 1 then s[n - 1] else t[m - 1];
  }
}
