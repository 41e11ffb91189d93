/** The timer queue: a binary min-heap of timer nodes in a vector, with a map from timer id
    to heap position that follows every swap. */
module TimerQueue {
  // Instants are nanoseconds since the epoch; a task is known by a number.
  type Time = int
  type Task = nat

  datatype Node = Node(timerId: nat, expiry: Time, task: Task, valid: bool)

  const DEFAULT_TICK_MILLISECONDS := 500
  const NANOSECONDS_PER_MILLISECOND := 1_000_000

  predicate Greater(a: Node, b: Node) {
    if a.expiry == b.expiry then a.timerId > b.timerId else a.expiry > b.expiry
  }

  /** Milliseconds since the epoch: duration_cast drops the fraction toward zero. */
  function ToMilliseconds(t: Time): int {
    if t >= 0 then t / NANOSECONDS_PER_MILLISECOND else -(-t / NANOSECONDS_PER_MILLISECOND)
  }

  lemma MillisecondsMonotone(a: Time, b: Time)
    requires a <= b
    ensures ToMilliseconds(a) <= ToMilliseconds(b)
  {
  }

  // ----- Heap order -----

  function Parent(k: nat): nat
    requires k > 0
  {
    (k - 1) / 2
  }

  ghost predicate Ordered(heap: seq<Node>, k: nat)
    requires 0 < k < |heap|
  {
    !Greater(heap[Parent(k)], heap[k])
  }

  ghost predicate IsHeap(heap: seq<Node>) {
    forall k :: 0 < k < |heap| ==> Ordered(heap, k)
  }

  /** Everybody but position `p` is in order with its parent, and the children of `p` are in
      order with the parent of `p`: what sifting up from `p` repairs. */
  ghost predicate HeapAbove(heap: seq<Node>, p: nat) {
    && (forall k :: 0 < k < |heap| && k != p ==> Ordered(heap, k))
    && (forall k :: 0 < k < |heap| && 0 < p < |heap| && Parent(k) == p ==> !Greater(heap[Parent(p)], heap[k]))
  }

  /** As above, except that the children of `p` may also be out of order with `p`. */
  ghost predicate HeapAround(heap: seq<Node>, p: nat) {
    && (forall k :: 0 < k < |heap| && k != p && Parent(k) != p ==> Ordered(heap, k))
    && (forall k :: 0 < k < |heap| && 0 < p < |heap| && Parent(k) == p ==> !Greater(heap[Parent(p)], heap[k]))
  }

  lemma {:induction false} RootIsLeast(heap: seq<Node>, k: nat)
    requires IsHeap(heap) && k < |heap|
    ensures !Greater(heap[0], heap[k])
  {
    if k > 0 {
      RootIsLeast(heap, Parent(k));
      assert Ordered(heap, k);
    }
  }

  // ----- The reverse index and what the pair stands for -----

  /** The map is exactly the inverse of the heap positions. */
  ghost predicate Indexed(heap: seq<Node>, index: map<nat, nat>) {
    && (forall k :: 0 <= k < |heap| ==> heap[k].timerId in index && index[heap[k].timerId] == k)
    && (forall id :: id in index ==> index[id] < |heap| && heap[index[id]].timerId == id)
  }

  ghost function Entries(heap: seq<Node>, index: map<nat, nat>): map<nat, Node>
    requires Indexed(heap, index)
  {
    map id | id in index :: heap[index[id]]
  }

  function SwapNodes(heap: seq<Node>, a: nat, b: nat): seq<Node>
    requires a < |heap| && b < |heap|
  {
    heap[a := heap[b]][b := heap[a]]
  }

  function SwapIndex(index: map<nat, nat>, x: nat, y: nat): map<nat, nat>
    requires x in index && y in index
  {
    index[x := index[y]][y := index[x]]
  }

  lemma SwapKeeps(heap: seq<Node>, index: map<nat, nat>, a: nat, b: nat)
    requires Indexed(heap, index) && a < |heap| && b < |heap|
    ensures Indexed(SwapNodes(heap, a, b), SwapIndex(index, heap[a].timerId, heap[b].timerId))
    ensures Entries(SwapNodes(heap, a, b), SwapIndex(index, heap[a].timerId, heap[b].timerId)) == Entries(heap, index)
  {
  }

  // ----- What the queue is for: a map of timers -----

  function Added(m: map<nat, Node>, node: Node): map<nat, Node> {
    if node.timerId in m then m else m[node.timerId := node]
  }

  function Cancelled(m: map<nat, Node>, id: nat): map<nat, Node> {
    if id in m then m[id := m[id].(valid := false)] else m
  }

  function Updated(m: map<nat, Node>, id: nat, expiry: Time): map<nat, Node> {
    if id in m then m[id := m[id].(expiry := expiry)] else m
  }

  function Remaining(m: map<nat, Node>, now: Time): map<nat, Node> {
    map id | id in m && m[id].expiry > now :: m[id]
  }

  /** `due` lists the entries expired at `now`, each once, by expiry and then by id. */
  ghost predicate DueInOrder(m: map<nat, Node>, now: Time, due: seq<nat>) {
    && (forall id :: id in due <==> id in m && m[id].expiry <= now)
    && (forall i, j :: 0 <= i < j < |due| ==> Before(m, due[i], due[j]))
  }

  predicate Before(m: map<nat, Node>, x: nat, y: nat)
    requires x in m && y in m
  {
    m[x].expiry < m[y].expiry || (m[x].expiry == m[y].expiry && x < y)
  }

  /** The comparison of the heap is this order. */
  lemma GreaterIsAfter(m: map<nat, Node>, x: nat, y: nat)
    requires x in m && y in m && m[x].timerId == x && m[y].timerId == y
    ensures Greater(m[y], m[x]) <==> Before(m, x, y)
  {
  }

  function TasksOf(m: map<nat, Node>, due: seq<nat>): seq<Task>
    requires forall id :: id in due ==> id in m
  {
    if due == [] then []
    else TasksOf(m, due[..|due| - 1]) + (if m[due[|due| - 1]].valid then [m[due[|due| - 1]].task] else [])
  }

  /** The wait, in milliseconds, is between nothing and the tick; no timer left has a deadline,
      in milliseconds, before its end, nor a whole millisecond before it in nanoseconds; and it
      is cut short by a timer only, which is due within the millisecond after it. */
  ghost predicate NeverOversleeps(m: map<nat, Node>, now: Time, wait: int) {
    && 0 <= wait <= 500
    && (forall id :: id in m ==> m[id].expiry > now && wait * 1_000_000 < m[id].expiry - now + 1_000_000)
    && (wait < 500 && now >= 0 ==> exists id :: id in m && m[id].expiry - now < (wait + 1) * 1_000_000)
    && (forall id :: id in m ==> m[id].expiry > now && ToMilliseconds(now) + wait <= ToMilliseconds(m[id].expiry))
    && (wait < 500 ==>
          exists id :: id in m && ToMilliseconds(now) + wait == ToMilliseconds(m[id].expiry))
  }

  class TimerQueue {
    var heap: seq<Node>
    var index: map<nat, nat>

    ghost predicate Valid()
      reads this
    {
      IsHeap(heap) && Indexed(heap, index)
    }

    ghost function Contents(): map<nat, Node>
      reads this
      requires Indexed(heap, index)
    {
      Entries(heap, index)
    }

    constructor ()
      ensures Valid() && Contents() == map[]
    {
      heap, index := [], map[];
    }

    method AddTimer(timerId: nat, expiry: Time, task: Task) returns (added: bool)
      requires Valid()
      modifies this
      ensures Valid()
      ensures added == (timerId !in old(Contents()))
      ensures Contents() == Added(old(Contents()), Node(timerId, expiry, task, true))
    {
      var node := Node(timerId, expiry, task, true);
      if timerId !in index {
        var last := |heap|;
        heap := heap + [node];
        index := index[timerId := last];
        AppendKeeps(old(heap), old(index), node);
        Fixup(last);
        added := true;
      } else {
        added := false;
      }
    }

    method CancelTimer(timerId: nat)
      requires Valid()
      modifies this
      ensures Valid()
      ensures Contents() == Cancelled(old(Contents()), timerId)
    {
      if timerId !in index {
        return;
      }
      var i := index[timerId];
      heap := heap[i := heap[i].(valid := false)];
      InvalidateKeeps(old(heap), index, i);
    }

    method UpdateTimer(timerId: nat, expiry: Time)
      requires Valid()
      modifies this
      ensures Valid()
      ensures Contents() == Updated(old(Contents()), timerId, expiry)
    {
      if timerId !in index {
        return;
      }
      var i := index[timerId];
      heap := heap[i := heap[i].(expiry := expiry)];
      UpdateLeavesAround(old(heap), index, i, expiry);
      FixDown(i);
      Fixup(i);
    }

    /** The paired swaps of the sifting loops: the positions recorded for two nodes, and the
        nodes. */
    method Swap(a: nat, b: nat)
      requires Indexed(heap, index) && a < |heap| && b < |heap|
      modifies this
      ensures heap == SwapNodes(old(heap), a, b)
      ensures Indexed(heap, index) && Contents() == old(Contents())
    {
      SwapKeeps(heap, index, a, b);
      index := SwapIndex(index, heap[a].timerId, heap[b].timerId);
      heap := SwapNodes(heap, a, b);
    }

    /** Sifts the node at `start` up to its place. */
    method Fixup(start: nat)
      requires Indexed(heap, index) && HeapAbove(heap, start) && start < |heap|
      modifies this
      ensures Valid() && Contents() == old(Contents())
    {
      var son: nat := start;
      while son > 0
        invariant son < |heap| && Indexed(heap, index) && HeapAbove(heap, son)
        invariant Contents() == old(Contents())
      {
        var parent := (son - 1) / 2;
        if !Greater(heap[parent], heap[son]) {
          break;
        }
        SiftUpStep(heap, son);
        Swap(parent, son);
        son := parent;
      }
    }

    /** Sifts the node at `start` down to its place. */
    method FixDown(start: nat)
      requires Indexed(heap, index) && HeapAround(heap, start)
      modifies this
      ensures Indexed(heap, index) && HeapAbove(heap, start)
      ensures Contents() == old(Contents()) && |heap| == old(|heap|)
    {
      var last := |heap|;
      SiftDownStarts(heap, start);
      var parent := start;
      while parent * 2 + 1 < last
        invariant last == |heap| == old(|heap|)
        invariant Indexed(heap, index) && Contents() == old(Contents())
        invariant SiftingDown(heap, start, parent)
        decreases last - parent
      {
        var son := PickSon(parent);
        SiftDownRound(heap, start, parent, son);
        if Greater(heap[son], heap[parent]) {
          return;
        }
        Swap(parent, son);
        parent := son;
      }
      SiftDownBottom(heap, start, parent);
    }

    method PickSon(parent: nat) returns (son: nat)
      requires parent * 2 + 1 < |heap|
      ensures parent < son < |heap| && LesserChild(heap, parent, son)
    {
      son := parent * 2 + 1;
      if son + 1 < |heap| && Greater(heap[son], heap[son + 1]) {
        son := son + 1;
      }
    }

    /** Takes out every timer that has expired, hands the tasks of the valid ones to the
        caller, and says how long the loop may sleep. */
    method HandleTimeout(now: Time, tasks: seq<Task>) returns (waitTime: int, timeouts: seq<Task>, ghost due: seq<nat>)
      requires Valid()
      modifies this
      ensures Valid()
      ensures Contents() == Remaining(old(Contents()), now)
      ensures DueInOrder(old(Contents()), now, due)
      ensures timeouts == tasks + TasksOf(old(Contents()), due)
      ensures NeverOversleeps(Contents(), now, waitTime)
    {
      ghost var before := Contents();
      timeouts, due := tasks, [];
      while |heap| > 0 && now >= heap[0].expiry
        invariant Valid()
        invariant Drained(before, Contents(), now, due)
        invariant timeouts == tasks + TasksOf(before, due)
        decreases |heap|
      {
        var node := heap[0];
        RootIsNext(heap, index);
        DrainOne(before, Contents(), now, due, node);
        if node.valid {
          timeouts := timeouts + [node.task];
        }
        due := due + [node.timerId];
        EraseRoot();
      }
      DrainedAll(before, heap, index, now, due);
      waitTime := WaitTime(now);
    }

    /** The tail of HandleTimeout's loop: the root leaves the index and the heap. */
    method EraseRoot()
      requires Valid() && |heap| > 0
      modifies this
      ensures Valid() && |heap| == old(|heap|) - 1
      ensures Contents() == old(Contents()) - {old(heap[0].timerId)}
    {
      PopKeeps(heap, index);
      index := index - {heap[0].timerId};
      heap := SwapNodes(heap, 0, |heap| - 1);
      if |heap| > 1 {
        index := index[heap[0].timerId := 0];
      }
      heap := heap[..|heap| - 1];
      assert heap == PoppedHeap(old(heap)) && index == PoppedIndex(old(heap), old(index));
      FixDown(0);
    }

    method WaitTime(now: Time) returns (waitTime: int)
      requires Valid()
      requires |heap| > 0 ==> now < heap[0].expiry
      ensures NeverOversleeps(Contents(), now, waitTime)
    {
      if |heap| > 0 {
        RootIsNext(heap, index);
        WaitIsSafe(Contents(), now, heap[0].timerId);
        waitTime := ToMilliseconds(heap[0].expiry) - ToMilliseconds(now);
        if waitTime > DEFAULT_TICK_MILLISECONDS {
          waitTime := DEFAULT_TICK_MILLISECONDS;
        }
      } else {
        waitTime := DEFAULT_TICK_MILLISECONDS;
      }
    }
  }

  // ----- The sifting loops, on sequences -----

  lemma AppendKeeps(heap: seq<Node>, index: map<nat, nat>, node: Node)
    requires IsHeap(heap) && Indexed(heap, index) && node.timerId !in index
    ensures HeapAbove(heap + [node], |heap|)
    ensures Indexed(heap + [node], index[node.timerId := |heap|])
    ensures Entries(heap + [node], index[node.timerId := |heap|]) == Entries(heap, index)[node.timerId := node]
  {
    var h := heap + [node];
    forall k | 0 < k < |h| && k != |heap| ensures Ordered(h, k) {
      assert Ordered(heap, k);
    }
  }

  lemma InvalidateKeeps(heap: seq<Node>, index: map<nat, nat>, i: nat)
    requires IsHeap(heap) && Indexed(heap, index) && i < |heap|
    ensures IsHeap(heap[i := heap[i].(valid := false)])
    ensures Indexed(heap[i := heap[i].(valid := false)], index)
    ensures Entries(heap[i := heap[i].(valid := false)], index) == Cancelled(Entries(heap, index), heap[i].timerId)
  {
    var h := heap[i := heap[i].(valid := false)];
    forall k | 0 < k < |h| ensures Ordered(h, k) {
      assert Ordered(heap, k);
    }
  }

  lemma UpdateLeavesAround(heap: seq<Node>, index: map<nat, nat>, i: nat, expiry: Time)
    requires IsHeap(heap) && Indexed(heap, index) && i < |heap|
    ensures HeapAround(heap[i := heap[i].(expiry := expiry)], i)
    ensures Indexed(heap[i := heap[i].(expiry := expiry)], index)
    ensures Entries(heap[i := heap[i].(expiry := expiry)], index) == Updated(Entries(heap, index), heap[i].timerId, expiry)
  {
    var h := heap[i := heap[i].(expiry := expiry)];
    forall k | 0 < k < |h| && k != i && Parent(k) != i ensures Ordered(h, k) {
      assert Ordered(heap, k);
    }
    forall k | 0 < k < |h| && 0 < i && Parent(k) == i ensures !Greater(h[Parent(i)], h[k]) {
      assert Ordered(heap, k) && Ordered(heap, i);
    }
  }

  lemma SiftUpStep(heap: seq<Node>, son: nat)
    requires HeapAbove(heap, son) && 0 < son < |heap| && Greater(heap[Parent(son)], heap[son])
    ensures HeapAbove(SwapNodes(heap, Parent(son), son), Parent(son))
  {
    var p := Parent(son);
    var h := SwapNodes(heap, p, son);
    forall k | 0 < k < |h| && k != p ensures Ordered(h, k) {
      if k != son {
        assert Ordered(heap, k);
      }
    }
    forall k | 0 < k < |h| && 0 < p && Parent(k) == p ensures !Greater(h[Parent(p)], h[k]) {
      assert Ordered(heap, p);
      if k != son {
        assert Ordered(heap, k);
      }
    }
  }

  /** The child FixDown picks is the lesser of the two, or the only one. */
  lemma LeastChild(heap: seq<Node>, p: nat, son: nat)
    requires p < son < |heap| && LesserChild(heap, p, son)
    ensures Parent(son) == p
    ensures forall k :: 0 < k < |heap| && Parent(k) == p ==> !Greater(heap[son], heap[k])
  {
    forall k | 0 < k < |heap| && Parent(k) == p ensures !Greater(heap[son], heap[k]) {
      assert k == 2 * p + 1 || k == 2 * p + 2;
    }
  }

  /** FixDown's loop, started at `p` and now at `cur`. */
  ghost predicate SiftingDown(heap: seq<Node>, p: nat, cur: nat) {
    && p <= cur
    && (forall k :: 0 < k < |heap| && k != p && Parent(k) != cur ==> Ordered(heap, k))
    && (forall k :: 0 < k < |heap| && 0 < cur < |heap| && Parent(k) == cur ==> !Greater(heap[Parent(cur)], heap[k]))
    && (p < cur && 0 < p < |heap| ==> Ordered(heap, p))
  }

  lemma SiftDownStep(heap: seq<Node>, p: nat, cur: nat, son: nat)
    requires SiftingDown(heap, p, cur) && cur < son < |heap| && Parent(son) == cur
    requires forall k :: 0 < k < |heap| && Parent(k) == cur ==> !Greater(heap[son], heap[k])
    requires !Greater(heap[son], heap[cur])
    ensures SiftingDown(SwapNodes(heap, cur, son), p, son)
  {
    var h := SwapNodes(heap, cur, son);
    forall k | 0 < k < |h| && k != p && Parent(k) != son ensures Ordered(h, k) {
      if k != cur && Parent(k) != cur {
        assert Ordered(heap, k);
      }
    }
    forall k | 0 < k < |h| && Parent(k) == son ensures !Greater(h[Parent(son)], h[k]) {
      assert Ordered(heap, k);
    }
    if 0 < p && p < cur {
      assert Ordered(heap, p);
    }
  }

  predicate LesserChild(heap: seq<Node>, p: nat, son: nat)
    requires p < son < |heap|
  {
    || (son == 2 * p + 1 && (son + 1 < |heap| ==> !Greater(heap[son], heap[son + 1])))
    || (son == 2 * p + 2 && Greater(heap[son - 1], heap[son]))
  }

  lemma SiftDownRound(heap: seq<Node>, p: nat, cur: nat, son: nat)
    requires SiftingDown(heap, p, cur) && cur < son < |heap| && LesserChild(heap, cur, son)
    ensures Greater(heap[son], heap[cur]) ==> HeapAbove(heap, p)
    ensures !Greater(heap[son], heap[cur]) ==> SiftingDown(SwapNodes(heap, cur, son), p, son)
  {
    LeastChild(heap, cur, son);
    if Greater(heap[son], heap[cur]) {
      SiftDownStops(heap, p, cur, son);
    } else {
      SiftDownStep(heap, p, cur, son);
    }
  }

  lemma SiftDownStarts(heap: seq<Node>, p: nat)
    requires HeapAround(heap, p)
    ensures SiftingDown(heap, p, p)
  {
  }

  lemma SiftDownBottom(heap: seq<Node>, p: nat, cur: nat)
    requires SiftingDown(heap, p, cur) && |heap| <= 2 * cur + 1
    ensures HeapAbove(heap, p)
  {
    assert forall k :: 0 < k < |heap| ==> Parent(k) != cur;
    SiftDownEnds(heap, p, cur);
  }

  lemma SiftDownStops(heap: seq<Node>, p: nat, cur: nat, son: nat)
    requires SiftingDown(heap, p, cur) && cur < |heap| && son < |heap|
    requires forall k :: 0 < k < |heap| && Parent(k) == cur ==> !Greater(heap[son], heap[k])
    requires Greater(heap[son], heap[cur])
    ensures HeapAbove(heap, p)
  {
    forall k | 0 < k < |heap| && Parent(k) == cur ensures Ordered(heap, k) {
    }
    SiftDownEnds(heap, p, cur);
  }

  lemma SiftDownEnds(heap: seq<Node>, p: nat, cur: nat)
    requires SiftingDown(heap, p, cur)
    requires forall k :: 0 < k < |heap| && Parent(k) == cur ==> Ordered(heap, k)
    ensures HeapAbove(heap, p)
  {
    if p < cur && 0 < p < |heap| {
      forall k | 0 < k < |heap| && Parent(k) == p ensures !Greater(heap[Parent(p)], heap[k]) {
        assert Ordered(heap, k) && Ordered(heap, p);
      }
    }
  }

  // ----- Draining -----

  /** The root is the entry with the least key. */
  lemma RootIsNext(heap: seq<Node>, index: map<nat, nat>)
    requires IsHeap(heap) && Indexed(heap, index) && |heap| > 0
    ensures heap[0].timerId in Entries(heap, index) && Entries(heap, index)[heap[0].timerId] == heap[0]
    ensures forall id :: id in Entries(heap, index) && id != heap[0].timerId ==>
              Before(Entries(heap, index), heap[0].timerId, id)
  {
    forall id | id in Entries(heap, index) && id != heap[0].timerId
      ensures Before(Entries(heap, index), heap[0].timerId, id)
    {
      RootIsLeast(heap, index[id]);
      GreaterIsAfter(Entries(heap, index), heap[0].timerId, id);
    }
  }

  function PoppedHeap(heap: seq<Node>): seq<Node>
    requires |heap| > 0
  {
    SwapNodes(heap, 0, |heap| - 1)[..|heap| - 1]
  }

  function PoppedIndex(heap: seq<Node>, index: map<nat, nat>): map<nat, nat>
    requires |heap| > 0
  {
    var erased := index - {heap[0].timerId};
    if |heap| > 1 then erased[heap[|heap| - 1].timerId := 0] else erased
  }

  /** Erasing the root: the last node takes its place and its position. */
  lemma PopKeeps(heap: seq<Node>, index: map<nat, nat>)
    requires IsHeap(heap) && Indexed(heap, index) && |heap| > 0
    ensures HeapAround(PoppedHeap(heap), 0)
    ensures Indexed(PoppedHeap(heap), PoppedIndex(heap, index))
    ensures Entries(PoppedHeap(heap), PoppedIndex(heap, index)) == Entries(heap, index) - {heap[0].timerId}
  {
    var h := PoppedHeap(heap);
    forall k | 0 < k < |h| && Parent(k) != 0 ensures Ordered(h, k) {
      assert Ordered(heap, k);
    }
  }

  /** `due` was taken out of `before` in order, and `m` is what is left. */
  ghost predicate Drained(before: map<nat, Node>, m: map<nat, Node>, now: Time, due: seq<nat>) {
    && (forall id :: id in due ==> id in before && before[id].expiry <= now)
    && (forall id :: id in m <==> id in before && id !in due)
    && (forall id :: id in m ==> m[id] == before[id])
    && (forall i, j :: 0 <= i < j < |due| ==> Before(before, due[i], due[j]))
    && (forall i, id :: 0 <= i < |due| && id in m ==> Before(before, due[i], id))
  }

  lemma DrainOne(before: map<nat, Node>, m: map<nat, Node>, now: Time, due: seq<nat>, node: Node)
    requires Drained(before, m, now, due)
    requires node.timerId in m && m[node.timerId] == node && node.expiry <= now
    requires forall id :: id in m && id != node.timerId ==> Before(m, node.timerId, id)
    ensures Drained(before, m - {node.timerId}, now, due + [node.timerId])
    ensures TasksOf(before, due + [node.timerId]) == TasksOf(before, due) + (if node.valid then [node.task] else [])
  {
    var due' := due + [node.timerId];
    assert due'[..|due' | - 1] == due;
  }

  lemma DrainedAll(before: map<nat, Node>, heap: seq<Node>, index: map<nat, nat>, now: Time, due: seq<nat>)
    requires IsHeap(heap) && Indexed(heap, index)
    requires Drained(before, Entries(heap, index), now, due)
    requires |heap| > 0 ==> now < heap[0].expiry
    ensures Entries(heap, index) == Remaining(before, now)
    ensures DueInOrder(before, now, due)
  {
    var m := Entries(heap, index);
    forall id | id in m ensures m[id].expiry > now {
      RootIsLeast(heap, index[id]);
    }
    assert forall id :: id in before ==> id in due || id in m;
  }

  /** The difference of two truncated times, in nanoseconds. */
  lemma TruncatedDifference(a: Time, b: Time)
    requires a < b
    ensures var wait := ToMilliseconds(b) - ToMilliseconds(a);
            wait * 1_000_000 < b - a + 1_000_000 && (a >= 0 ==> b - a < (wait + 1) * 1_000_000)
  {
  }

  lemma WaitIsSafe(m: map<nat, Node>, now: Time, root: nat)
    requires root in m && now < m[root].expiry
    requires forall id :: id in m && id != root ==> Before(m, root, id)
    ensures var wait := ToMilliseconds(m[root].expiry) - ToMilliseconds(now);
            NeverOversleeps(m, now, if wait > DEFAULT_TICK_MILLISECONDS then DEFAULT_TICK_MILLISECONDS else wait)
  {
    MillisecondsMonotone(now, m[root].expiry);
    TruncatedDifference(now, m[root].expiry);
    forall id | id in m ensures ToMilliseconds(m[root].expiry) <= ToMilliseconds(m[id].expiry) {
      MillisecondsMonotone(m[root].expiry, m[id].expiry);
    }
  }

  lemma {:induction false} SortedUnique(m: map<nat, Node>, a: seq<nat>, b: seq<nat>)
    requires forall id :: id in a ==> id in m
    requires forall id :: id in a <==> id in b
    requires forall i, j :: 0 <= i < j < |a| ==> Before(m, a[i], a[j])
    requires forall i, j :: 0 <= i < j < |b| ==> Before(m, b[i], b[j])
    ensures a == b
  {
    assert 0 < |b| ==> b[0] in a;
    if a == [] {
    } else {
      assert a[0] in b;
      var n, k := |a| - 1, |b| - 1;
      assert a[n] in b && b[k] in a;
      assert a[n] == b[k];
      var a', b' := a[..n], b[..k];
      assert a == a' + [a[n]] && b == b' + [b[k]];
      assert a[n] !in a' && b[k] !in b';
      forall id ensures id in a' <==> id in b' {
        assert id in a <==> id in a' || id == a[n];
        assert id in b <==> id in b' || id == b[k];
      }
      SortedUnique(m, a', b');
    }
  }

  lemma {:induction false} LeastDue(m: map<nat, Node>, ids: set<nat>) returns (least: nat)
    requires ids != {} && ids <= m.Keys
    ensures least in ids && forall id :: id in ids && id != least ==> Before(m, least, id)
    decreases |ids|
  {
    least :| least in ids;
    var others := ids - {least};
    if others != {} {
      var first := least;
      var second := LeastDue(m, others);
      least := if Before(m, second, first) then second else first;
      forall id | id in ids && id != least ensures Before(m, least, id) {
        assert id == first || id in others;
        assert id == second || id == first || Before(m, second, id);
      }
    } else {
      assert forall id :: id in ids && id != least ==> id in others;
    }
  }

  lemma {:induction false} OrderOf(m: map<nat, Node>, ids: set<nat>) returns (order: seq<nat>)
    requires ids <= m.Keys
    ensures forall id :: id in order <==> id in ids
    ensures forall i, j :: 0 <= i < j < |order| ==> Before(m, order[i], order[j])
    decreases |ids|
  {
    if ids == {} {
      order := [];
    } else {
      var least := LeastDue(m, ids);
      var later := OrderOf(m, ids - {least});
      order := [least] + later;
    }
  }

  /** Whatever is due can be put in that order ... */
  lemma DueExists(m: map<nat, Node>, now: Time)
    ensures exists due :: DueInOrder(m, now, due)
  {
    var ids := set id | id in m && m[id].expiry <= now;
    var due := OrderOf(m, ids);
    assert forall id :: id in ids <==> id in m && m[id].expiry <= now;
    assert DueInOrder(m, now, due);
  }

  /** The order is total, so there is one way to list what is due: HandleTimeout's result is
      determined by the map and the clock. */
  lemma DueIsUnique(m: map<nat, Node>, now: Time, a: seq<nat>, b: seq<nat>)
    requires DueInOrder(m, now, a) && DueInOrder(m, now, b)
    ensures a == b
  {
    SortedUnique(m, a, b);
  }

  // ----- Any sequence of operations -----

  datatype Op =
    | Add(node: Node)
    | Cancel(id: nat)
    | Update(id: nat, expiry: Time)
    | Tick(now: Time, due: seq<nat>)

  // The timers, with counts, per id, of the timers accepted and of those taken out.
  ghost predicate Can(m: map<nat, Node>, op: Op) {
    op.Tick? ==> DueInOrder(m, op.now, op.due)
  }

  ghost function Do(m: map<nat, Node>, op: Op): map<nat, Node> {
    match op
    case Add(node) => Added(m, node)
    case Cancel(id) => Cancelled(m, id)
    case Update(id, expiry) => Updated(m, id, expiry)
    case Tick(now, _) => Remaining(m, now)
  }

  ghost predicate CanAll(m: map<nat, Node>, ops: seq<Op>) {
    ops == [] || (CanAll(m, ops[..|ops| - 1]) && Can(DoAll(m, ops[..|ops| - 1]), ops[|ops| - 1]))
  }

  ghost function DoAll(m: map<nat, Node>, ops: seq<Op>): map<nat, Node> {
    if ops == [] then m else Do(DoAll(m, ops[..|ops| - 1]), ops[|ops| - 1])
  }

  // How often timers of this id were accepted, emitted (task handed out) and dropped (task
  // destroyed, because the timer had been cancelled).
  datatype Count = Count(accepted: nat, emitted: nat, dropped: nat)

  ghost function Tally(m: map<nat, Node>, ops: seq<Op>, id: nat): Count {
    if ops == [] then Count(0, 0, 0)
    else
      var c, before := Tally(m, ops[..|ops| - 1], id), DoAll(m, ops[..|ops| - 1]);
      match ops[|ops| - 1]
      case Add(node) =>
        if node.timerId == id && id !in before then c.(accepted := c.accepted + 1) else c
      case Tick(now, due) =>
        if id in due && id in before then
          if before[id].valid then c.(emitted := c.emitted + 1) else c.(dropped := c.dropped + 1)
        else c
      case _ => c
  }

  /** Over any run, the timers accepted under an id are the ones emitted, the ones dropped
      and at most one still in the queue: no task is lost, none is handed out twice. */
  lemma {:induction false} TimersConserved(ops: seq<Op>, id: nat)
    requires CanAll(map[], ops)
    ensures var c := Tally(map[], ops, id);
            c.accepted == c.emitted + c.dropped + (if id in DoAll(map[], ops) then 1 else 0)
  {
    if ops == [] {
    } else {
      TimersConserved(ops[..|ops| - 1], id);
    }
  }

  /** One tick splits the timers in three: handed out, dropped, left as they were. */
  lemma TickPartitions(m: map<nat, Node>, now: Time, due: seq<nat>, id: nat)
    requires DueInOrder(m, now, due) && id in m
    ensures id in due <==> id !in Remaining(m, now)
    ensures id in Remaining(m, now) ==> Remaining(m, now)[id] == m[id]
    ensures id in due && m[id].valid ==> m[id].task in TasksOf(m, due)
  {
    if id in due && m[id].valid {
      var k :| 0 <= k < |due| && due[k] == id;
      EmittedTask(m, due, k);
    }
  }

  lemma {:induction false} EmittedTask(m: map<nat, Node>, due: seq<nat>, k: nat)
    requires forall id :: id in due ==> id in m
    requires k < |due| && m[due[k]].valid
    ensures m[due[k]].task in TasksOf(m, due)
  {
    var init := due[..|due| - 1];
    if k < |init| {
      assert forall id :: id in init ==> id in due;
      EmittedTask(m, init, k);
      assert init[k] == due[k];
    }
  }
}
