/** Intrusive singly linked lists: the `next_` pointers of suspended awaiters, and the
    chains of coroutines they spell. */
module Links {

  // A coroutine is named by a number; it owns one awaiter object at a time, so the same
  // number also names the address of that object, and an address comes back when the
  // coroutine locks or waits again.
  type Id = nat

  datatype Link = Null | To(id: Id)

  function At(next: map<Id, Link>, i: Id): Link {
    if i in next then next[i] else Null
  }

  /** Following `next` from `from` visits exactly `ids`, in that order, and then ends. */
  ghost predicate IsChain(next: map<Id, Link>, from: Link, ids: seq<Id>)
    decreases |ids|
  {
    if ids == [] then from == Null
    else from == To(ids[0]) && IsChain(next, At(next, ids[0]), ids[1..])
  }

  ghost predicate NoDup(ids: seq<Id>) {
    forall i, j :: 0 <= i < j < |ids| ==> ids[i] != ids[j]
  }

  function Reverse(ids: seq<Id>): (r: seq<Id>)
    ensures |r| == |ids|
  {
    if ids == [] then [] else Reverse(ids[1..]) + [ids[0]]
  }

  /** Writing the link of a coroutine outside a chain leaves the chain alone. */
  lemma {:induction false} ChainFrame(next: map<Id, Link>, from: Link, ids: seq<Id>, i: Id, l: Link)
    requires IsChain(next, from, ids)
    requires i !in ids
    ensures IsChain(next[i := l], from, ids)
    decreases |ids|
  {
    if ids == [] {
    } else {
      assert ids[0] in ids;
      assert forall j :: j in ids[1..] ==> j in ids;
      ChainFrame(next, At(next, ids[0]), ids[1..], i, l);
    }
  }

  /** A head pointer spells at most one chain, so the ghost lists below are functions of
      the pointers. */
  lemma {:induction false} ChainUnique(next: map<Id, Link>, from: Link, a: seq<Id>, b: seq<Id>)
    requires IsChain(next, from, a) && IsChain(next, from, b)
    ensures a == b
    decreases |a|
  {
    if a == [] || b == [] {
    } else {
      ChainUnique(next, At(next, a[0]), a[1..], b[1..]);
      assert a == [a[0]] + a[1..] && b == [b[0]] + b[1..];
    }
  }

  lemma ChainPush(next: map<Id, Link>, from: Link, ids: seq<Id>, i: Id)
    requires IsChain(next, from, ids)
    requires At(next, i) == from
    ensures IsChain(next, To(i), [i] + ids)
  {
    assert ([i] + ids)[1..] == ids;
  }

  lemma {:induction false} ReverseMembers(ids: seq<Id>)
    ensures forall i :: i in Reverse(ids) <==> i in ids
  {
    if ids == [] {
    } else {
      ReverseMembers(ids[1..]);
      assert ids == [ids[0]] + ids[1..];
    }
  }
}
