/** The FIFO queue below the LSN tracker (writequeue/write_queue.go): a doubly linked
    list walked from `tail` (the oldest entry) towards `head` (the newest) along `next`. */
module WriteQueues {

  datatype Option<+T> = None | Some(value: T)

  function TotalSize<T>(s: seq<T>, size: T -> nat): (total: nat)
  {
    if s == [] then 0 else size(s[0]) + TotalSize(s[1..], size)
  }

  lemma {:induction false} TotalSizeAppend<T>(a: seq<T>, b: seq<T>, size: T -> nat)
    ensures TotalSize(a + b, size) == TotalSize(a, size) + TotalSize(b, size)
  {
    if a == [] {
      assert a + b == b;
    } else {
      assert (a + b)[1..] == a[1..] + b;
      TotalSizeAppend(a[1..], b, size);
    }
  }

  lemma TotalSizeInsert<T>(s: seq<T>, k: nat, x: T, size: T -> nat)
    requires k <= |s|
    ensures TotalSize(InsertAt(s, k, x), size) == TotalSize(s, size) + size(x)
  {
    assert s == s[..k] + s[k..];
    TotalSizeAppend(s[..k], s[k..], size);
    TotalSizeAppend(s[..k], [x], size);
    TotalSizeAppend(s[..k] + [x], s[k..], size);
  }

  function InsertAt<T>(s: seq<T>, k: nat, x: T): seq<T>
    requires k <= |s|
  {
    s[..k] + [x] + s[k..]
  }

  /** Linear insertion before the first match, the reference version that the
      repository's own benchmark compares `PushBefore` with. */
  function InsertBeforeFirst<T>(s: seq<T>, x: T, before: T -> bool): (r: seq<T>)
  {
    if s == [] then [x]
    else if before(s[0]) then [x] + s
    else [s[0]] + InsertBeforeFirst(s[1..], x, before)
  }

  /** False for a prefix of the queue, then true. */
  ghost predicate Monotone<T>(s: seq<T>, before: T -> bool)
  {
    forall i, j :: 0 <= i < j < |s| && before(s[i]) ==> before(s[j])
  }

  /** `k` separates an entry that is not `before` from one that is. */
  ghost predicate Boundary<T>(s: seq<T>, before: T -> bool, k: nat)
  {
    && k <= |s|
    && (k > 0 ==> !before(s[k - 1]))
    && (k < |s| ==> before(s[k]))
  }

  /** On a monotone predicate there is a single boundary, and it is where linear insertion goes. */
  lemma {:induction false} BoundaryIsLinearInsertion<T>(s: seq<T>, x: T, before: T -> bool, k: nat)
    requires Monotone(s, before) && Boundary(s, before, k)
    ensures InsertAt(s, k, x) == InsertBeforeFirst(s, x, before)
  {
    if s == [] {
    } else if before(s[0]) {
    } else {
      assert forall i :: 0 <= i < |s| - 1 ==> s[1..][i] == s[i + 1];
      BoundaryIsLinearInsertion(s[1..], x, before, k - 1);
      assert InsertAt(s, k, x) == [s[0]] + InsertAt(s[1..], k - 1, x);
    }
  }

  predicate Increasing<T>(s: seq<T>, key: T -> int)
  {
    forall i, j :: 0 <= i < j < |s| ==> key(s[i]) < key(s[j])
  }

  /** With a predicate like the tracker's, "existing LSN greater than the new LSN", insertion of a new
      key keeps the queue strictly increasing. */
  lemma SortedInsertion<T>(s: seq<T>, x: T, key: T -> int, before: T -> bool)
    requires Increasing(s, key)
    requires forall i :: 0 <= i < |s| ==> key(s[i]) != key(x) && before(s[i]) == (key(s[i]) > key(x))
    ensures Monotone(s, before)
    ensures Increasing(InsertBeforeFirst(s, x, before), key)
  {
    forall i, j | 0 <= i < j < |s| && before(s[i]) ensures before(s[j]) {
      assert key(s[i]) < key(s[j]);
    }
    var k := FirstMatch(s, before);
    BoundaryIsLinearInsertion(s, x, before, k);
    IncreasingInsert(s, x, key, k);
  }

  lemma IncreasingInsert<T>(s: seq<T>, x: T, key: T -> int, k: nat)
    requires Increasing(s, key) && k <= |s|
    requires (k > 0 ==> key(s[k - 1]) < key(x)) && (k < |s| ==> key(x) < key(s[k]))
    ensures Increasing(InsertAt(s, k, x), key)
  {
    var t := InsertAt(s, k, x);
    forall i, j | 0 <= i < j < |t| ensures key(t[i]) < key(t[j]) {
      var a, b := if i < k then i else i - 1, if j < k then j else j - 1;
      if i == k {
        assert t[j] == s[b] && (b == k || key(s[k]) < key(s[b]));
      } else if j == k {
        assert t[i] == s[a] && (a == k - 1 || key(s[a]) < key(s[k - 1]));
      } else {
        assert t[i] == s[a] && t[j] == s[b] && key(s[a]) < key(s[b]);
      }
    }
  }

  /** Index of the first match, or the length. */
  function FirstMatch<T>(s: seq<T>, p: T -> bool): (k: nat)
    ensures k <= |s|
    ensures forall i :: 0 <= i < k ==> !p(s[i])
    ensures k < |s| ==> p(s[k])
  {
    if s == [] || p(s[0]) then 0 else
      var k := FirstMatch(s[1..], p);
      assert forall i :: 0 <= i < |s| - 1 ==> s[1..][i] == s[i + 1];
      k + 1
  }

  lemma FirstMatchUnique<T>(s: seq<T>, p: T -> bool, k: nat)
    requires k <= |s|
    requires forall i :: 0 <= i < k ==> !p(s[i])
    requires k < |s| ==> p(s[k])
    ensures k == FirstMatch(s, p)
  {
  }

  class Node<T> {
    const data: T
    var next: Node?<T>
    var prev: Node?<T>

    constructor (data: T)
      ensures this.data == data && next == null && prev == null
    {
      this.data := data;
      next, prev := null, null;
    }
  }

  ghost function Data<T>(nodes: seq<Node<T>>): (s: seq<T>)
    ensures |s| == |nodes| && forall i :: 0 <= i < |s| ==> s[i] == nodes[i].data
  {
    seq(|nodes|, i requires 0 <= i < |nodes| => nodes[i].data)
  }

  /** The counter is the sum of the entry sizes. */
  ghost predicate SizesCounted<T>(nodes: seq<Node<T>>, size: T -> nat, count: nat)
  {
    count == TotalSize(Data(nodes), size)
  }

  lemma DataInsert<T>(nodes: seq<Node<T>>, k: nat, node: Node<T>, size: T -> nat, count: nat)
    requires k <= |nodes| && SizesCounted(nodes, size, count)
    ensures Data(InsertAt(nodes, k, node)) == InsertAt(Data(nodes), k, node.data)
    ensures SizesCounted(InsertAt(nodes, k, node), size, count + size(node.data))
  {
    assert Data(InsertAt(nodes, k, node)) == InsertAt(Data(nodes), k, node.data);
    TotalSizeInsert(Data(nodes), k, node.data, size);
  }

  lemma DataAppend<T>(nodes: seq<Node<T>>, node: Node<T>, size: T -> nat, count: nat)
    requires SizesCounted(nodes, size, count)
    ensures Data(nodes + [node]) == Data(nodes) + [node.data]
    ensures SizesCounted(nodes + [node], size, count + size(node.data))
  {
    assert Data(nodes + [node]) == Data(nodes) + [node.data];
    TotalSizeAppend(Data(nodes), [node.data], size);
  }

  lemma DataDrop<T>(nodes: seq<Node<T>>, size: T -> nat, count: nat)
    requires nodes != [] && SizesCounted(nodes, size, count)
    ensures Data(nodes[1..]) == Data(nodes)[1..] && count >= size(nodes[0].data)
    ensures SizesCounted(nodes[1..], size, count - size(nodes[0].data))
  {
    assert Data(nodes[1..]) == Data(nodes)[1..];
  }

  lemma DataSuffix<T>(nodes: seq<Node<T>>, i: nat)
    requires i <= |nodes|
    ensures Data(nodes[i..]) == Data(nodes)[i..]
  {
  }

  ghost predicate Distinct<T>(s: seq<T>)
  {
    forall i, j :: 0 <= i < j < |s| ==> s[i] != s[j]
  }

  lemma DistinctInsert<T>(s: seq<T>, k: nat, x: T)
    requires k <= |s| && Distinct(s) && x !in s
    ensures Distinct(InsertAt(s, k, x))
  {
  }

  lemma InsertMember<T>(s: seq<T>, k: nat, x: T)
    requires k <= |s|
    ensures forall e <- InsertAt(s, k, x) :: e in s || e == x
  {
  }

  lemma InsertFirst<T>(s: seq<T>, x: T)
    ensures InsertAt(s, 0, x) == [x] + s
  {
  }

  /** Forward and backward links of the `i`-th node. */
  ghost predicate LinkAt<T>(nodes: seq<Node<T>>, i: int)
    requires 0 <= i < |nodes|
    reads nodes[i]
  {
    && nodes[i].next == (if i + 1 < |nodes| then nodes[i + 1] else null)
    && nodes[i].prev == (if i > 0 then nodes[i - 1] else null)
  }

  ghost predicate Chain<T>(nodes: seq<Node<T>>)
    reads nodes
  {
    && Distinct(nodes)
    && (forall i {:trigger LinkAt(nodes, i)} :: 0 <= i < |nodes| ==> LinkAt(nodes, i))
  }

  ghost predicate Ends<T>(nodes: seq<Node<T>>, tail: Node?<T>, head: Node?<T>)
  {
    if nodes == [] then tail == null && head == null
    else tail == nodes[0] && head == nodes[|nodes| - 1]
  }

  class WriteQueue<T> {
    var tail: Node?<T>
    var head: Node?<T>
    var count: nat
    var stopped: bool

    /** `Size()` of an entry; tracked writes cache it, so it does not change while queued. */
    const size: T -> nat

    /** The nodes from `tail` to `head`. */
    ghost var nodes: seq<Node<T>>

    ghost function Contents(): seq<T>
      reads this`nodes
    {
      Data(nodes)
    }

    /** The nodes form a chain between the two ends, which are nil together, and the counter is
        the sum of the entry sizes. */
    ghost predicate Valid()
      reads this, nodes
    {
      && Chain(nodes)
      && Ends(nodes, tail, head)
      && SizesCounted(nodes, size, count)
    }

    ghost predicate Linked()
      reads this`tail, this`head, this`nodes, nodes
    {
      Chain(nodes) && Ends(nodes, tail, head)
    }

    constructor (size: T -> nat)
      ensures Valid() && Contents() == [] && !stopped && this.size == size
    {
      this.size := size;
      tail, head, count, stopped := null, null, 0, false;
      nodes := [];
    }

    /** Appends at the newest end. */
    method Push(item: T) returns (newCount: nat)
      requires Valid()
      modifies this, nodes
      ensures Valid() && Contents() == old(Contents()) + [item] && stopped == old(stopped)
      ensures forall n <- nodes :: n in old(nodes) || fresh(n)
      ensures newCount == count
    {
      var node := new Node(item);
      DataAppend(nodes, node, size, count);
      count := count + size(item);
      LinkAsHead(node);
      newCount := count;
    }

    method LinkAsHead(node: Node<T>)
      requires Linked() && node !in nodes && node.next == null && node.prev == null
      modifies this`tail, this`head, this`nodes, nodes, node
      ensures Linked() && nodes == old(nodes) + [node]
    {
      if tail == null {
        tail, head := node, node;
      } else {
        head.next := node;
        node.prev := head;
        head := node;
      }
      nodes := nodes + [node];
      forall i | 0 <= i < |nodes| - 1 ensures LinkAt(nodes, i) { assert old(LinkAt(nodes, i)); }
    }

    /** Prepends at the oldest end. */
    method PutAtTail(item: T) returns (newCount: nat)
      requires Valid()
      modifies this, nodes
      ensures Valid() && Contents() == [item] + old(Contents()) && stopped == old(stopped)
      ensures forall n <- nodes :: n in old(nodes) || fresh(n)
      ensures newCount == count
    {
      var node := new Node(item);
      count := count + size(item);
      LinkAsTail(node);
      DataInsert(old(nodes), 0, node, size, old(count));
      InsertMember(old(nodes), 0, node);
      InsertFirst(old(Contents()), item);
      newCount := count;
    }

    method LinkAsTail(node: Node<T>)
      requires Linked() && node !in nodes && node.next == null && node.prev == null
      modifies this`tail, this`head, this`nodes, nodes, node
      ensures Linked() && nodes == InsertAt(old(nodes), 0, node)
    {
      if tail == null {
        tail, head := node, node;
      } else {
        node.next := tail;
        tail.prev := node;
        tail := node;
      }
      InsertFirst(nodes, node);
      nodes := [node] + nodes;
      forall i | 1 <= i < |nodes| ensures LinkAt(nodes, i) { assert old(LinkAt(nodes, i - 1)); }
    }

    method InsertBeforeNode(node: Node<T>, target: Node<T>, ghost k: nat)
      requires Linked() && node !in nodes
      requires k < |nodes| && nodes[k] == target
      modifies this`tail, this`nodes, nodes, node
      ensures Linked() && nodes == InsertAt(old(nodes), k, node)
    {
      assert LinkAt(nodes, k) && (k > 0 ==> LinkAt(nodes, k - 1));
      node.next := target;
      node.prev := target.prev;
      if target.prev == null {
        tail := node;
      } else {
        target.prev.next := node;
      }
      target.prev := node;
      ghost var was := nodes;
      nodes := InsertAt(was, k, node);
      DistinctInsert(was, k, node);
      forall i | 0 <= i < |nodes| ensures LinkAt(nodes, i) {
        if i < k {
          assert nodes[i] == was[i] && old(LinkAt(was, i)) && was[i] != was[k];
        } else if i > k {
          assert nodes[i] == was[i - 1] && old(LinkAt(was, i - 1)) && (k > 0 ==> was[i - 1] != was[k - 1]);
        }
      }
    }

    method InsertAfterNode(node: Node<T>, target: Node<T>, ghost k: nat)
      requires Linked() && node !in nodes
      requires k < |nodes| && nodes[k] == target
      modifies this`head, this`nodes, nodes, node
      ensures Linked() && nodes == InsertAt(old(nodes), k + 1, node)
    {
      assert LinkAt(nodes, k) && (k + 1 < |nodes| ==> LinkAt(nodes, k + 1));
      node.next := target.next;
      node.prev := target;
      if target.next == null {
        head := node;
      } else {
        target.next.prev := node;
      }
      target.next := node;
      ghost var was := nodes;
      nodes := InsertAt(was, k + 1, node);
      DistinctInsert(was, k + 1, node);
      forall i | 0 <= i < |nodes| ensures LinkAt(nodes, i) {
        if i <= k {
          assert nodes[i] == was[i] && old(LinkAt(was, i)) && (k + 1 < |was| ==> was[i] != was[k + 1]);
        } else if i > k + 1 {
          assert nodes[i] == was[i - 1] && old(LinkAt(was, i - 1)) && was[i - 1] != was[k];
        }
      }
    }

    /** Two-ended search. For every predicate it stops after at most half the queue at a
        boundary of that predicate; on a monotone one the queue becomes exactly what
        linear insertion would make it. */
    method PushBefore(item: T, before: Option<T -> bool>) returns (newCount: nat, ghost k: nat, ghost steps: nat)
      requires Valid()
      modifies this, nodes
      ensures Valid() && stopped == old(stopped) && newCount == count
      ensures forall n <- nodes :: n in old(nodes) || fresh(n)
      ensures k <= |old(Contents())| && Contents() == InsertAt(old(Contents()), k, item)
      ensures before.None? ==> k == |old(Contents())|
      ensures before.Some? ==> Boundary(old(Contents()), before.value, k)
      ensures before.Some? && Monotone(old(Contents()), before.value)
              ==> Contents() == InsertBeforeFirst(old(Contents()), item, before.value)
      ensures 2 * steps <= |old(Contents())|
    {
      if before.None? {
        k, steps := |nodes|, 0;
        newCount := Push(item);
      } else {
        newCount, k, steps := PushAtBoundary(item, before.value);
        if Monotone(old(Contents()), before.value) {
          BoundaryIsLinearInsertion(old(Contents()), item, before.value, k);
        }
      }
    }

    method PushAtBoundary(item: T, before: T -> bool) returns (newCount: nat, ghost k: nat, ghost steps: nat)
      requires Valid()
      modifies this`tail, this`head, this`count, this`nodes, nodes
      ensures Valid() && newCount == count
      ensures forall n <- nodes :: n in old(nodes) || fresh(n)
      ensures Boundary(old(Contents()), before, k)
      ensures Contents() == InsertAt(old(Contents()), k, item)
      ensures 2 * steps <= |old(Contents())|
    {
      var node := new Node(item);
      count := count + size(item);
      k, steps := Search(node, before);
      DataInsert(old(nodes), k, node, size, old(count));
      InsertMember(old(nodes), k, node);
      newCount := count;
    }

    /** The branches of `PushBefore`, with the position found as a ghost result. */
    method Search(node: Node<T>, before: T -> bool) returns (ghost k: nat, ghost steps: nat)
      requires Linked() && node !in nodes && node.next == null && node.prev == null
      modifies this`tail, this`head, this`nodes, nodes, node
      ensures Linked() && Boundary(old(Contents()), before, k)
      ensures nodes == InsertAt(old(nodes), k, node)
      ensures 2 * steps <= |old(Contents())|
    {
      k, steps := 0, 0;
      if tail == null {
        LinkAsHead(node);
      } else if before(tail.data) {
        InsertBeforeNode(node, tail, 0);
      } else if !before(head.data) {
        k := |nodes|;
        InsertAfterNode(node, head, k - 1);
      } else {
        var target;
        target, k, steps := SearchBetween(before);
        InsertAfterNode(node, target, k - 1);
      }
    }

    /** The loop of `PushBefore`: one cursor walks from each end, and the entry that the new
        node goes after is found before they cross. */
    method SearchBetween(before: T -> bool) returns (target: Node<T>, ghost k: nat, ghost steps: nat)
      requires Linked() && nodes != []
      requires !before(tail.data) && before(head.data)
      ensures 0 < k < |nodes| && Boundary(Contents(), before, k) && target == nodes[k - 1]
      ensures 2 * steps <= |nodes|
    {
      var fromTail, fromHead := tail, head;
      ghost var n := |nodes|;
      steps := 0;
      while true
        invariant steps < n - 1 - steps
        invariant fromTail == nodes[steps] && fromHead == nodes[n - 1 - steps]
        invariant !before(fromTail.data) && before(fromHead.data)
        decreases n - steps
      {
        assert LinkAt(nodes, steps) && LinkAt(nodes, n - 1 - steps);
        var nextFromTail := fromTail.next;
        if nextFromTail == null || before(nextFromTail.data) {
          return fromTail, steps + 1, steps;
        }
        var prevFromHead := fromHead.prev;
        if prevFromHead == null {
          // fromTail is strictly older than fromHead, so this branch is never taken
          assert false;
        }
        if !before(prevFromHead.data) {
          return prevFromHead, n - 1 - steps, steps;
        }
        fromTail, fromHead := nextFromTail, prevFromHead;
        steps := steps + 1;
      }
    }

    /** The first match from the oldest end; nothing once stopped. */
    method Find(f: T -> bool) returns (r: Option<T>)
      requires Valid()
      ensures stopped ==> r.None?
      ensures !stopped ==> r == var k := FirstMatch(Contents(), f);
                                if k < |Contents()| then Some(Contents()[k]) else None
    {
      if stopped { return None; }
      var node := tail;
      ghost var i := 0;
      while node != null
        invariant 0 <= i <= |nodes| && node == if i < |nodes| then nodes[i] else null
        invariant forall j :: 0 <= j < i ==> !f(Contents()[j])
        decreases |nodes| - i
      {
        if f(node.data) {
          return Some(node.data);
        }
        assert LinkAt(nodes, i);
        node := node.next;
        i := i + 1;
      }
      r := None;
    }

    /** Removes the oldest node; the counter subtracts its size and returns to 0 when the queue empties. */
    method DropTail()
      requires Valid() && tail != null
      modifies this`tail, this`head, this`count, this`nodes, nodes
      ensures Valid() && nodes == old(nodes)[1..]
    {
      DataDrop(nodes, size, count);
      count := count - size(tail.data);
      UnlinkTail();
      if tail == null {
        count := 0;
      }
    }

    method UnlinkTail()
      requires Linked() && tail != null
      modifies this`tail, this`head, this`nodes, nodes
      ensures Linked() && nodes == old(nodes)[1..]
    {
      assert LinkAt(nodes, 0) && (|nodes| > 1 ==> LinkAt(nodes, 1));
      tail := tail.next;
      if tail == null {
        head := null;
      } else {
        tail.prev := null;
      }
      nodes := nodes[1..];
      forall i | 0 <= i < |nodes| ensures LinkAt(nodes, i) { assert old(LinkAt(nodes, i + 1)); }
    }

    /** Blocking is left to the caller: an empty queue waits, so the step is taken when there is
        an entry or the queue is stopped. */
    method Pop() returns (r: Option<T>)
      requires Valid() && (stopped || Contents() != [])
      modifies this, nodes
      ensures Valid() && stopped == old(stopped)
      ensures stopped ==> r.None? && Contents() == old(Contents())
      ensures !stopped ==> r == Some(old(Contents())[0]) && Contents() == old(Contents())[1..]
    {
      if stopped { return None; }
      r := Some(tail.data);
      DropTail();
    }

    /** Removes the longest prefix whose entries all satisfy `f`. */
    method PopUntil(f: T -> bool)
      requires Valid()
      modifies this, nodes
      ensures Valid() && stopped == old(stopped)
      ensures Contents() == if stopped then old(Contents())
                          else old(Contents())[FirstMatch(old(Contents()), (e: T) => !f(e))..]
    {
      if stopped || tail == null { return; }
      ghost var i := 0;
      while tail != null
        invariant Valid() && !stopped
        invariant 0 <= i <= |old(nodes)|
        invariant nodes == old(nodes)[i..]
        invariant forall j :: 0 <= j < i ==> f(old(nodes)[j].data)
        decreases |nodes|
      {
        if !f(tail.data) { break; }
        DropTail();
        i := i + 1;
      }
      DataSuffix(old(nodes), i);
      FirstMatchUnique(old(Contents()), (e: T) => !f(e), i);
    }
  }
}
