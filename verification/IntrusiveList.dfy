/** The intrusive singly-linked list, on the heap.  The list does not own its nodes; a node is
    the caller's, and may be used only while the task whose stack holds it is suspended. */
module IntrusiveList {

  class Node<T> {
    var value: T
    var next: Node?<T>
    /** History: the suspended task has not been resumed, so that the node still exists. */
    ghost var alive: bool

    constructor (value: T)
      ensures this.value == value && next == null && alive
    {
      this.value := value;
      next := null;
      alive := true;
    }
  }

  ghost predicate Distinct<T>(s: seq<T>) {
    forall i, j :: 0 <= i < j < |s| ==> s[i] != s[j]
  }

  /** `head` leads through `nodes`, in order, to `tail` and null. */
  ghost predicate Linked<T>(head: Node?<T>, tail: Node?<T>, nodes: seq<Node<T>>)
    reads nodes
  {
    && (nodes == [] ==> head == null && tail == null)
    && (nodes != [] ==> head == nodes[0] && tail == nodes[|nodes| - 1] && nodes[|nodes| - 1].next == null)
    && forall i :: 0 <= i < |nodes| - 1 ==> nodes[i].next == nodes[i + 1]
  }

  class List<T> {
    var m_head: Node?<T>
    var m_tail: Node?<T>
    ghost var nodes: seq<Node<T>>
    ghost var contents: seq<T>

    /** The nodes are distinct, linked in order, alive, and hold the contents. */
    ghost predicate Valid()
      reads this, nodes
    {
      && Distinct(nodes) && Linked(m_head, m_tail, nodes)
      && |contents| == |nodes|
      && forall i :: 0 <= i < |nodes| ==> nodes[i].alive && nodes[i].value == contents[i]
    }

    constructor ()
      ensures Valid() && nodes == [] && contents == []
    {
      m_head, m_tail := null, null;
      nodes, contents := [], [];
    }

    /** The move constructor: all nodes change hands and the source is left empty. */
    constructor Move(other: List<T>)
      requires other.Valid()
      modifies other
      ensures Valid() && nodes == old(other.nodes) && contents == old(other.contents)
      ensures other.Valid() && other.nodes == [] && other.contents == []
    {
      m_head, m_tail := other.m_head, other.m_tail;
      nodes, contents := other.nodes, other.contents;
      new;
      other.m_head, other.m_tail := null, null;
      other.nodes, other.contents := [], [];
    }

    method PushBack(node: Node<T>)
      requires Valid() && node !in nodes && node.next == null && node.alive
      modifies this, m_tail
      ensures Valid() && nodes == old(nodes) + [node] && contents == old(contents) + [node.value]
    {
      if m_tail != null {
        m_tail.next := node;
      } else {
        m_head := node;
      }
      m_tail := node;
      nodes, contents := nodes + [node], contents + [node.value];
    }

    /** The node returned is off the list and can be pushed again. */
    method PopFront() returns (node: Node?<T>)
      requires Valid()
      modifies this, m_head
      ensures Valid()
      ensures old(nodes) == [] ==> node == null && nodes == [] && contents == []
      ensures old(nodes) != [] ==>
                && node == old(nodes)[0] && node.value == old(contents)[0]
                && node !in nodes && node.next == null && node.alive
                && nodes == old(nodes)[1..] && contents == old(contents)[1..]
    {
      if m_head == null {
        return null;
      }
      node := m_head;
      m_head := m_head.next;
      if m_head == null {
        m_tail := null;
      }
      node.next := null;
      nodes, contents := nodes[1..], contents[1..];
    }

    method Empty() returns (empty: bool)
      requires Valid()
      ensures empty <==> nodes == []
    {
      empty := m_head == null;
    }

    method Swap(other: List<T>)
      requires Valid() && other.Valid()
      modifies this, other
      ensures Valid() && other.Valid()
      ensures nodes == old(other.nodes) && contents == old(other.contents)
      ensures other.nodes == old(nodes) && other.contents == old(contents)
    {
      m_head, other.m_head := other.m_head, m_head;
      m_tail, other.m_tail := other.m_tail, m_tail;
      nodes, other.nodes := other.nodes, nodes;
      contents, other.contents := other.contents, contents;
    }
  }

  lemma FirstLink<T>(head: Node?<T>, tail: Node?<T>, s: seq<Node<T>>)
    requires Linked(head, tail, s)
    ensures s == [] <==> head == null
    ensures head != null ==> head == s[0] && (|s| == 1 <==> head.next == null)
    ensures head != null && head.next != null ==>
              head.next == s[1] && Linked(head.next, tail, s[1..]) && s == [head] + s[1..]
  {
    if |s| > 1 {
      assert s[0].next == s[1];
    }
  }

  /** The links determine the sequence: a list has only one reading. */
  lemma {:induction false} OneReading<T>(
    head: Node?<T>, tail: Node?<T>, tail': Node?<T>, s: seq<Node<T>>, s': seq<Node<T>>)
    requires Linked(head, tail, s) && Linked(head, tail', s')
    ensures s == s' && tail == tail'
    decreases |s|
  {
    FirstLink(head, tail, s);
    FirstLink(head, tail', s');
    if head != null && head.next != null {
      OneReading(head.next, tail, tail', s[1..], s'[1..]);
    }
  }

  lemma SuffixLinked<T>(head: Node?<T>, tail: Node?<T>, s: seq<Node<T>>, i: nat)
    requires Linked(head, tail, s) && i < |s|
    ensures Linked(s[i], tail, s[i..])
  {
    forall k | 0 <= k < |s[i..]| - 1 ensures s[i..][k].next == s[i..][k + 1] {
      assert s[i + k].next == s[i + k + 1];
    }
  }

  /** And the links run in no circle: a chain that reaches its end passes no node twice. */
  lemma Acyclic<T>(head: Node?<T>, tail: Node?<T>, s: seq<Node<T>>)
    requires Linked(head, tail, s)
    ensures Distinct(s)
  {
    forall i, j | 0 <= i < j < |s| ensures s[i] != s[j] {
      SuffixLinked(head, tail, s, i);
      SuffixLinked(head, tail, s, j);
      if s[i] == s[j] {
        OneReading(s[i], tail, tail, s[i..], s[j..]);
      }
    }
  }
}
