/**
 * The doubly linked list of Common/esif_link_list.c.
 *
 * A list is a heap structure: head and tail pointers, a 32-bit node count, and nodes that point at
 * each other both ways. The ghost field `spine` names the nodes in order, and Valid() says that
 * the pointers are exactly the ones the spine prescribes.
 */
module LinkList {
  import opened Base

  class Node {
    var data: Address // NULL when there is no data
    var next: Node?
    var prev: Node?

    constructor (data: Address)
      ensures this.data == data && next == null && prev == null
    {
      this.data := data;
      next, prev := null, null;
    }
  }

  /** The ordering callback: (data before the gap, data after it, new data) to (status, verdict). */
  type SortCallback = (Address, Address, Address) -> (Rc, int)

  /** `s`, read from `head` to `tail`, is linked both ways and closed at both ends. */
  ghost predicate Linked(s: seq<Node>, head: Node?, tail: Node?)
    reads s
  {
    && (if s == [] then head == null && tail == null
        else head == s[0] && head.prev == null && tail == s[|s| - 1] && tail.next == null)
    && (forall i {:trigger s[i].prev} :: 1 <= i < |s| ==> s[i].prev == s[i - 1])
    && (forall i {:trigger s[i].next} :: 0 <= i < |s| - 1 ==> s[i].next == s[i + 1])
  }

  /** `s` is linked except that its links jump over position `k`. */
  ghost predicate Bridged(s: seq<Node>, k: nat, head: Node?, tail: Node?)
    requires k < |s|
    reads s
  {
    var before := if k == 0 then null else s[k - 1];
    var after := if k + 1 == |s| then null else s[k + 1];
    && (if before == null then head == after else head == s[0] && head.prev == null && before.next == after)
    && (if after == null then tail == before else tail == s[|s| - 1] && tail.next == null && after.prev == before)
    && (forall i {:trigger s[i].prev} :: 1 <= i < |s| && i != k && i != k + 1 ==> s[i].prev == s[i - 1])
    && (forall i {:trigger s[i].next} :: 0 <= i < |s| - 1 && i != k && i != k - 1 ==> s[i].next == s[i + 1])
  }

  /** `s` is linked except that its links take in `x` between positions `k` and `k + 1`. */
  ghost predicate Spliced(s: seq<Node>, k: nat, x: Node, head: Node?, tail: Node?)
    requires k < |s|
    reads s, x
  {
    && head == s[0] && head.prev == null
    && s[k].next == x && x.prev == s[k]
    && (if k + 1 == |s| then x.next == null && tail == x
        else x.next == s[k + 1] && s[k + 1].prev == x && tail == s[|s| - 1] && tail.next == null)
    && (forall i {:trigger s[i].prev} :: 1 <= i < |s| && i != k + 1 ==> s[i].prev == s[i - 1])
    && (forall i {:trigger s[i].next} :: 0 <= i < |s| - 1 && i != k ==> s[i].next == s[i + 1])
  }

  function Insert<X>(s: seq<X>, k: nat, x: X): (r: seq<X>)
    requires k <= |s|
    ensures |r| == |s| + 1 && r[k] == x
    ensures forall i :: 0 <= i < k ==> r[i] == s[i]
    ensures forall i :: k < i < |r| ==> r[i] == s[i - 1]
  {
    s[..k] + [x] + s[k..]
  }

  function Remove<X>(s: seq<X>, k: nat): (r: seq<X>)
    requires k < |s|
    ensures |r| == |s| - 1
    ensures forall i :: 0 <= i < k ==> r[i] == s[i]
    ensures forall i :: k <= i < |r| ==> r[i] == s[i + 1]
  {
    s[..k] + s[k + 1..]
  }

  lemma LinkedWith(s: seq<Node>, k: nat, x: Node, head: Node?, tail: Node?)
    requires k < |s| && Spliced(s, k, x, head, tail)
    ensures Linked(Insert(s, k + 1, x), head, tail)
  {
    hide Insert;
  }

  lemma AtTheEnd<X>(s: seq<X>, x: X)
    ensures Insert(s, |s|, x) == s + [x]
  {
  }

  lemma LinkedWithout(s: seq<Node>, k: nat, head: Node?, tail: Node?)
    requires k < |s| && Bridged(s, k, head, tail)
    ensures Linked(Remove(s, k), head, tail)
  {
    hide Remove;
  }

  class List {
    var head: Node?
    var tail: Node?
    var nodes: nat
    ghost var spine: seq<Node>
    ghost var contents: seq<Address>

    ghost predicate Valid()
      reads this, spine
    {
      && nodes == |spine| % UINT32_SPAN
      && |contents| == |spine|
      && (forall i :: 0 <= i < |spine| ==> spine[i].data == contents[i])
      && Linked(spine, head, tail)
    }

    /** The node at position `i`, or null beyond either end. */
    ghost function At(i: int): Node?
      reads this`spine
    {
      if 0 <= i < |spine| then spine[i] else null
    }

    /** The links alone rule out a cycle: no node occurs twice. */
    lemma {:induction false} NoCycle(i: nat, j: nat)
      requires Valid() && i < j < |spine|
      ensures spine[i] != spine[j]
      decreases i
    {
      if spine[i] == spine[j] {
        assert spine[j].prev == spine[j - 1];
        if i > 0 {
          assert spine[i].prev == spine[i - 1];
          NoCycle(i - 1, j - 1);
        }
      }
    }

    lemma EmptyIff()
      requires Valid()
      ensures head == null <==> spine == []
    {
    }

    lemma Apart(i: int)
      requires Valid() && 0 <= i < |spine|
      ensures forall j :: 0 <= j < |spine| && j != i ==> spine[j] != spine[i]
    {
      forall j | 0 <= j < |spine| && j != i
        ensures spine[j] != spine[i]
      {
        if i < j { NoCycle(i, j); } else { NoCycle(j, i); }
      }
    }

    constructor ()
      ensures Valid() && spine == [] && contents == []
    {
      head, tail, nodes := null, null, 0;
      spine, contents := [], [];
    }

    method AddNodeAtFront(node: Node?)
      requires Valid() && node !in spine
      modifies this, spine, node
      ensures Valid()
      ensures spine == (if node == null then old(spine) else [node] + old(spine))
      ensures contents == (if node == null then old(contents) else [old(node.data)] + old(contents))
    {
      if node == null {
        return;
      }
      if head == null {
        node.prev := null;
        node.next := null;
        head := node;
        tail := node;
      } else {
        node.prev := null;
        node.next := head;
        head.prev := node;
        head := node;
      }
      nodes := (nodes + 1) % UINT32_SPAN;
      spine, contents := [node] + spine, [node.data] + contents;
    }

    /** The pointer writes of AddNodeAtBack to a list that is not empty. */
    method LinkAtBack(node: Node)
      requires Valid() && node !in spine && spine != []
      modifies this`nodes, this`tail, node`prev, node`next, tail`next
      ensures nodes == (|spine| + 1) % UINT32_SPAN && node.data == old(node.data)
      ensures forall i :: 0 <= i < |spine| ==> spine[i].data == contents[i]
      ensures Spliced(spine, |spine| - 1, node, head, tail)
    {
      Apart(|spine| - 1);
      node.prev := tail;
      node.next := null;
      tail.next := node;
      tail := node;
      nodes := (nodes + 1) % UINT32_SPAN;
    }

    method AddNodeAtBack(node: Node?)
      requires Valid() && node !in spine
      modifies this, spine, node
      ensures Valid()
      ensures spine == (if node == null then old(spine) else old(spine) + [node])
      ensures contents == (if node == null then old(contents) else old(contents) + [old(node.data)])
    {
      if node == null {
        return;
      }
      if head == null {
        AddNodeAtFront(node);
      } else {
        LinkAtBack(node);
        AtTheEnd(spine, node);
        LinkedWith(spine, |spine| - 1, node, head, tail);
        hide Linked, Spliced, Insert;
        spine, contents := spine + [node], contents + [node.data];
      }
    }

    method AddAtFront(data: Address) returns (rc: Rc)
      requires Valid()
      modifies this, spine
      ensures Valid() && rc == Ok
      ensures contents == [data] + old(contents)
      ensures |spine| == |old(spine)| + 1 && fresh(spine[0]) && spine == [spine[0]] + old(spine)
    {
      var node := new Node(data);
      AddNodeAtFront(node);
      rc := Ok;
    }

    method AddAtBack(data: Address) returns (rc: Rc)
      requires Valid()
      modifies this, spine
      ensures Valid() && rc == Ok
      ensures contents == old(contents) + [data]
      ensures |spine| == |old(spine)| + 1 && fresh(spine[|spine| - 1]) && spine == old(spine) + [spine[|spine| - 1]]
    {
      var node := new Node(data);
      AddNodeAtBack(node);
      rc := Ok;
    }

    /** Inserts after `node`, whose position is `k`; a null node means "at the front". */
    method AddAfter(node: Node?, data: Address, ghost k: int) returns (rc: Rc)
      requires Valid()
      requires -1 <= k < |spine| && node == At(k)
      modifies this, spine
      ensures Valid() && rc == Ok
      ensures contents == Insert(old(contents), k + 1, data)
      ensures |spine| == |old(spine)| + 1 && fresh(spine[k + 1])
      ensures spine == Insert(old(spine), k + 1, spine[k + 1])
    {
      rc := Ok;
      if node == null {
        rc := AddAtFront(data);
        return;
      }
      var newNode := new Node(data);
      AttachAfter(node, newNode, k);
    }

    /** LinkAfter, with the ghost view of the list brought up to date. */
    method AttachAfter(node: Node, newNode: Node, ghost k: nat)
      requires Valid() && k < |spine| && node == spine[k] && newNode !in spine
      modifies this, spine, newNode
      ensures Valid() && spine == Insert(old(spine), k + 1, newNode)
      ensures contents == Insert(old(contents), k + 1, old(newNode.data))
    {
      hide Insert, Spliced;
      LinkAfter(node, newNode, k);
      LinkedWith(spine, k, newNode, head, tail);
      ghost var longer, more := Insert(spine, k + 1, newNode), Insert(contents, k + 1, newNode.data);
      assert forall i :: 0 <= i < |longer| ==> longer[i].data == more[i];
      hide Linked;
      spine, contents := longer, more;
    }

    /** The pointer writes of AddAfter. */
    method LinkAfter(node: Node, newNode: Node, ghost k: nat)
      requires Valid() && k < |spine| && node == spine[k] && newNode !in spine
      modifies this`nodes, this`tail, node`next, newNode`next, newNode`prev
      modifies if node.next != null then {node.next} else {}
      ensures nodes == (|spine| + 1) % UINT32_SPAN
      ensures newNode.data == old(newNode.data)
      ensures forall i :: 0 <= i < |spine| ==> spine[i].data == contents[i]
      ensures Spliced(spine, k, newNode, head, tail)
    {
      Apart(k);
      if k + 1 < |spine| { Apart(k + 1); }
      newNode.next := node.next;
      node.next := newNode;
      newNode.prev := node;
      var nextNode := newNode.next;
      if nextNode != null {
        nextNode.prev := newNode;
      } else {
        tail := newNode;
      }
      nodes := (nodes + 1) % UINT32_SPAN;
    }

    /** The pointer writes of NodeRemove. */
    method Unlink(cur: Node, ghost k: nat)
      requires Valid() && k < |spine| && cur == spine[k]
      modifies this`nodes, this`head, this`tail
      modifies if cur.next != null then {cur.next} else {}
      modifies if cur.prev != null then {cur.prev} else {}
      ensures nodes == (|spine| - 1) % UINT32_SPAN
      ensures forall i :: 0 <= i < |spine| ==> spine[i].data == contents[i]
      ensures Bridged(spine, k, head, tail)
    {
      Apart(k);
      if k > 0 { Apart(k - 1); }
      if k + 1 < |spine| { Apart(k + 1); }
      if cur.prev == null {
        head := cur.next;
      } else {
        cur.prev.next := cur.next;
      }
      if cur.next == null {
        tail := cur.prev;
      } else {
        cur.next.prev := cur.prev;
      }
      nodes := (nodes - 1) % UINT32_SPAN;
    }

    /** Unlink, with the ghost view of the list brought up to date. */
    method Detach(cur: Node, ghost k: nat)
      requires Valid() && k < |spine| && cur == spine[k]
      modifies this, spine
      ensures Valid()
      ensures spine == Remove(old(spine), k) && contents == Remove(old(contents), k)
      ensures forall i :: 0 <= i < |old(spine)| ==> old(spine)[i].data == old(contents)[i]
    {
      hide Remove, Bridged;
      Unlink(cur, k);
      LinkedWithout(spine, k, head, tail);
      ghost var kept, data := Remove(spine, k), Remove(contents, k);
      assert forall i :: 0 <= i < |kept| ==> kept[i].data == data[i];
      hide Linked;
      spine, contents := kept, data;
    }

    /**
     * Searches for `node` and unlinks it; a node of another list, or null, changes nothing.
     * `at` is where the node was, or -1.
     */
    method NodeRemove(node: Node?) returns (ghost at: int)
      requires Valid()
      modifies this, spine
      ensures Valid()
      ensures -1 <= at < |old(spine)|
      ensures at == -1 ==> node !in old(spine) && unchanged(this) && unchanged(old(spine))
      ensures at >= 0 ==>
        && old(spine)[at] == node
        && spine == Remove(old(spine), at)
        && contents == Remove(old(contents), at)
      ensures forall i :: 0 <= i < |old(spine)| ==> old(spine)[i].data == old(contents)[i]
    {
      at := -1;
      if node == null {
        return;
      }
      var cur := head;
      ghost var i := 0;
      while cur != null
        invariant 0 <= i <= |spine|
        invariant cur == if i < |spine| then spine[i] else null
        invariant node !in spine[..i]
        decreases |spine| - i
      {
        if cur == node {
          at := i;
          Detach(cur, i);
          return;
        }
        cur := cur.next;
        i := i + 1;
      }
    }

    /** What NodeRemove does to the head node. */
    method RemoveHead(node: Node)
      requires Valid() && spine != [] && node == head
      modifies this, spine
      ensures Valid() && spine == old(spine)[1..] && contents == old(contents)[1..]
      ensures forall i :: 0 <= i < |old(spine)| ==> old(spine)[i].data == old(contents)[i]
    {
      Apart(0);
      ghost var at := NodeRemove(node);
    }

    /** Takes the head's datum out of its node and removes the node. */
    method TakeHead(node: Node) returns (data: Address)
      requires Valid() && spine != [] && node == head
      modifies this, spine
      ensures Valid() && spine == old(spine)[1..] && contents == old(contents)[1..]
      ensures data == old(contents)[0]
    {
      Apart(0);
      data := node.data;
      node.data := NULL;
      contents := contents[0 := NULL];
      RemoveHead(node);
    }

    /** Empties the list, handing every datum to the destroy function; `handed` logs those calls. */
    method FreeData() returns (handed: seq<Address>)
      requires Valid()
      modifies this, spine
      ensures Valid() && spine == [] && contents == []
      ensures handed == old(contents)
    {
      hide Linked;
      handed := [];
      var cur := head;
      ghost var m := 0;
      EmptyIff();
      while cur != null
        invariant Valid() && cur == head && (cur == null <==> spine == [])
        invariant 0 <= m <= |old(spine)| && m == |handed|
        invariant spine == old(spine)[m..]
        invariant contents == old(contents)[m..]
        invariant handed == old(contents)[..m]
        decreases |spine|
      {
        var data := TakeHead(cur);
        handed := handed + [data];
        cur := head;
        m := m + 1;
        EmptyIff();
      }
    }

    /** Empties the list and leaves the data alone. */
    method Destroy()
      requires Valid()
      modifies this, spine
      ensures Valid() && spine == [] && contents == []
      ensures forall i :: 0 <= i < |old(spine)| ==> old(spine)[i].data == old(contents)[i]
    {
      var cur := head;
      ghost var m := 0;
      while cur != null
        invariant Valid() && cur == head
        invariant 0 <= m <= |old(spine)|
        invariant spine == old(spine)[m..]
        invariant contents == old(contents)[m..]
        invariant forall i :: 0 <= i < m ==> old(spine)[i].data == old(contents)[i]
        decreases |spine|
      {
        RemoveHead(cur);
        cur := head;
        m := m + 1;
      }
    }

    /** Tries the gaps from the front and inserts at the first one the callback accepts. */
    method InsertOrdered(data: Address, callback: Option<SortCallback>) returns (rc: Rc)
      requires Valid()
      modifies this, spine
      ensures Valid()
      ensures callback == None ==> rc == CallbackIsNull && contents == old(contents) && spine == old(spine)
      ensures callback != None ==>
        var gap := FirstGap(old(contents), data, callback.value, 0);
        && rc == gap.Status()
        && contents == gap.Applied(old(contents), data)
        && (!gap.InsertAt? ==> unchanged(this) && unchanged(spine))
    {
      if callback == None {
        return CallbackIsNull;
      }
      var prevNode: Node? := null;
      var nextNode := head;
      ghost var i := 0;
      ghost var gap := FirstGap(contents, data, callback.value, 0);
      var more := true;
      while more
        invariant 0 <= i <= |spine| + 1
        invariant prevNode == At(i - 1) && nextNode == At(i)
        invariant more == (i <= |spine|)
        invariant unchanged(this) && unchanged(spine)
        invariant i <= |spine| ==> gap == FirstGap(contents, data, callback.value, i)
        invariant i == |spine| + 1 ==> gap == NoGap
        decreases |spine| + 1 - i
      {
        var prevData := if prevNode != null then prevNode.data else NULL;
        var nextData := if nextNode != null then nextNode.data else NULL;
        var (status, verdict) := callback.value(prevData, nextData, data);
        if status != Ok {
          return status;
        }
        if verdict != 0 {
          rc := AddAfter(prevNode, data, i - 1);
          return;
        }
        prevNode := if prevNode != null then prevNode.next else head;
        nextNode := if nextNode != null then nextNode.next else null;
        i := i + 1;
        more := prevNode != null || nextNode != null;
      }
      return OrderedInsert;
    }
  }

  /** What trying the gaps from some position onwards leads to. */
  datatype Gap = InsertAt(at: nat) | Refused(rc: Rc) | NoGap {
    function Status(): Rc {
      match this
      case InsertAt(_) => Ok
      case Refused(rc) => rc
      case NoGap => OrderedInsert
    }

    function Applied(c: seq<Address>, x: Address): seq<Address> {
      if InsertAt? && at <= |c| then Insert(c, at, x) else c
    }
  }

  /** The callback's answer for the gap before position `i` of `c`. */
  function Ask(c: seq<Address>, x: Address, callback: SortCallback, i: nat): (Rc, int)
    requires i <= |c|
  {
    callback(if i == 0 then NULL else c[i - 1], if i == |c| then NULL else c[i], x)
  }

  function FirstGap(c: seq<Address>, x: Address, callback: SortCallback, i: nat): (gap: Gap)
    requires i <= |c|
    ensures gap.InsertAt? ==> i <= gap.at <= |c|
    ensures gap.Refused? ==> gap.rc != Ok
    decreases |c| - i
  {
    var (status, verdict) := Ask(c, x, callback, i);
    if status != Ok then Refused(status)
    else if verdict != 0 then InsertAt(i)
    else if i == |c| then NoGap
    else FirstGap(c, x, callback, i + 1)
  }

  /** The gap at `j` was offered and turned down. */
  ghost predicate TurnedDown(c: seq<Address>, x: Address, callback: SortCallback, j: nat)
    requires j <= |c|
  {
    Ask(c, x, callback, j) == (Ok, 0)
  }

  /**
   * The outcome is that of the first gap, in order, which is not turned down; only when all
   * |c| + 1 gaps are turned down is the datum not inserted for want of a gap.
   */
  lemma {:induction false} FirstGapMeaning(c: seq<Address>, x: Address, callback: SortCallback, i: nat)
    requires i <= |c|
    ensures var gap := FirstGap(c, x, callback, i);
      && (forall j :: i <= j <= |c| && (gap.InsertAt? ==> j < gap.at) && !gap.Refused?
                      ==> TurnedDown(c, x, callback, j))
      && (gap.InsertAt? ==> var (status, verdict) := Ask(c, x, callback, gap.at); status == Ok && verdict != 0)
      && (gap.Refused? ==> exists k :: && i <= k <= |c| && Ask(c, x, callback, k).0 == gap.rc
                                       && forall j :: i <= j < k ==> TurnedDown(c, x, callback, j))
    decreases |c| - i
  {
    if TurnedDown(c, x, callback, i) && i < |c| {
      FirstGapMeaning(c, x, callback, i + 1);
    }
  }

  ghost predicate TotalPreorder(leq: (Address, Address) -> bool) {
    && (forall a, b :: leq(a, b) || leq(b, a))
    && (forall a, b, c :: leq(a, b) && leq(b, c) ==> leq(a, c))
  }

  ghost predicate Sorted(c: seq<Address>, leq: (Address, Address) -> bool) {
    forall i, j :: 0 <= i < j < |c| ==> leq(c[i], c[j])
  }

  /** The callback induced by an order: accept a gap whose neighbours are on the right sides. */
  function Between(leq: (Address, Address) -> bool): SortCallback {
    (p: Address, n: Address, x: Address) =>
      (Ok, if (p == NULL || leq(p, x)) && (n == NULL || leq(x, n)) then 1 else 0)
  }

  /** A sorted list always has an acceptable gap: the one before the first datum not below `x`. */
  lemma {:induction false} SortedGap(c: seq<Address>, x: Address, leq: (Address, Address) -> bool, i: nat)
    requires TotalPreorder(leq) && Sorted(c, leq) && NULL !in c
    requires i <= |c| && forall j :: 0 <= j < i ==> !leq(x, c[j])
    ensures var gap := FirstGap(c, x, Between(leq), i);
      && gap.InsertAt?
      && (forall j :: 0 <= j < gap.at ==> !leq(x, c[j]))
      && (gap.at < |c| ==> leq(x, c[gap.at]))
    decreases |c| - i
  {
    if i < |c| && !leq(x, c[i]) {
      SortedGap(c, x, leq, i + 1);
    }
  }

  lemma InsertSorted(c: seq<Address>, k: nat, x: Address, leq: (Address, Address) -> bool)
    requires TotalPreorder(leq) && Sorted(c, leq) && k <= |c|
    requires forall j :: 0 <= j < k ==> leq(c[j], x)
    requires forall j :: k <= j < |c| ==> leq(x, c[j])
    ensures Sorted(Insert(c, k, x), leq)
  {
  }

  lemma InsertCounts(c: seq<Address>, k: nat, x: Address)
    requires k <= |c|
    ensures multiset(Insert(c, k, x)) == multiset(c) + multiset{x}
  {
    assert c == c[..k] + c[k..];
  }

  /** Ordered insertion into a sorted list succeeds, keeps it sorted and adds exactly the datum. */
  lemma InsertKeepsSorted(c: seq<Address>, x: Address, leq: (Address, Address) -> bool)
    requires TotalPreorder(leq) && Sorted(c, leq) && NULL !in c && x != NULL
    ensures var gap := FirstGap(c, x, Between(leq), 0);
      && gap.Status() == Ok
      && Sorted(gap.Applied(c, x), leq)
      && multiset(gap.Applied(c, x)) == multiset(c) + multiset{x}
      && NULL !in gap.Applied(c, x)
  {
    SortedGap(c, x, leq, 0);
    var k := FirstGap(c, x, Between(leq), 0).at;
    forall j | k <= j < |c|
      ensures leq(x, c[j])
    {
      assert leq(x, c[k]) && (k < j ==> leq(c[k], c[j]));
    }
    InsertSorted(c, k, x, leq);
    InsertCounts(c, k, x);
  }

  /** The contents after inserting `xs` one after the other into the empty list. */
  function InsertAll(xs: seq<Address>, leq: (Address, Address) -> bool): seq<Address> {
    if xs == [] then []
    else
      var c := InsertAll(xs[..|xs| - 1], leq);
      FirstGap(c, xs[|xs| - 1], Between(leq), 0).Applied(c, xs[|xs| - 1])
  }

  lemma {:induction false} InsertAllSorts(xs: seq<Address>, leq: (Address, Address) -> bool)
    requires TotalPreorder(leq) && NULL !in xs
    ensures Sorted(InsertAll(xs, leq), leq)
    ensures multiset(InsertAll(xs, leq)) == multiset(xs) && NULL !in InsertAll(xs, leq)
  {
    if xs != [] {
      var front, x := xs[..|xs| - 1], xs[|xs| - 1];
      assert xs == front + [x];
      InsertAllSorts(front, leq);
      InsertKeepsSorted(InsertAll(front, leq), x, leq);
    }
  }
}
