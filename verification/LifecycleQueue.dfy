/** The connector-owned queue of learning dispositions and closes
    (fcitx5-hazkey/src/hazkey_server_connector.cpp:511-520, 535-549, 648-726). Every accepted
    disposition gets a ticket, and every ticket that left the queue has a recorded reason. */
module LifecycleQueues {
  import opened Sequences

  datatype Fate = BecameHead | Answered | Disconnected

  predicate Increasing(s: seq<nat>) {
    forall i, j :: 0 <= i < j < |s| ==> s[i] < s[j]
  }

  class LifecycleQueue<T(==)> {
    var items: seq<T>
    // Everything ever accepted; a ticket is an index into it.
    ghost var accepted: seq<T>
    // The tickets of the queued items, and the reasons of the others.
    ghost var tickets: seq<nat>
    ghost var fates: map<nat, Fate>
    // The tickets that became the head of the stream, in that order.
    ghost var heads: seq<nat>

    constructor ()
      ensures Valid() && items == [] && accepted == [] && heads == [] && fates == map[]
    {
      items, accepted, tickets, fates, heads := [], [], [], map[], [];
    }

    /** No item is queued twice; an item leaves only with a reason, and those that become the
        head of the stream do so in the order in which they were accepted. */
    ghost predicate Valid()
      reads this
    {
      && NoRepeats(items)
      && |tickets| == |items| && Increasing(tickets)
      && (forall k :: 0 <= k < |items| ==> tickets[k] < |accepted| && accepted[tickets[k]] == items[k])
      && (forall t: nat :: t in fates <==> t < |accepted| && t !in tickets)
      && Increasing(heads)
      && (forall h :: h in heads ==> h in fates && fates[h] == BecameHead)
      && (forall t: nat :: t in fates && fates[t] == BecameHead ==> t in heads)
      && (forall h, t :: h in heads && t in tickets ==> h < t)
    }

    /** Takes ownership, once, of an item. */
    method Enqueue(item: T) returns (ghost ticket: nat)
      requires Valid()
      modifies this
      ensures Valid() && heads == old(heads) && fates == old(fates)
      ensures ticket < |accepted| && accepted[ticket] == item && ticket !in fates
      ensures forall t :: t in fates ==> t < |old(accepted)|
      ensures items == if item in old(items) then old(items) else old(items) + [item]
      ensures accepted == if item in old(items) then old(accepted) else old(accepted) + [item]
    {
      if item in items {
        ghost var k :| 0 <= k < |items| && items[k] == item;
        ticket := tickets[k];
        return;
      }
      ticket := |accepted|;
      items := items + [item];
      accepted := accepted + [item];
      tickets := tickets + [ticket];
      assert forall t :: t in tickets <==> t in old(tickets) || t == ticket;
    }

    /** The oldest item becomes the head of the stream. */
    method TakeHead() returns (item: T, ghost ticket: nat)
      requires Valid() && items != []
      modifies this
      ensures Valid() && item == old(items)[0] && items == old(items)[1..] && accepted == old(accepted)
      ensures ticket < |accepted| && accepted[ticket] == item && ticket !in old(fates)
      ensures heads == old(heads) + [ticket] && fates == old(fates)[ticket := BecameHead]
      ensures forall t :: t in old(tickets) ==> ticket <= t
    {
      item, ticket := items[0], tickets[0];
      assert ticket in tickets;
      AppendLarger(heads, ticket);
      TailKeeps(items);
      TailKeeps(tickets);
      items, tickets := items[1..], tickets[1..];
      fates := fates[ticket := BecameHead];
      heads := heads + [ticket];
    }

    method Find(item: T) returns (k: nat)
      ensures k <= |items| && (k == |items| <==> item !in items)
      ensures k < |items| ==> items[k] == item
    {
      k := 0;
      while k < |items| && items[k] != item
        invariant 0 <= k <= |items|
        invariant forall i :: 0 <= i < k ==> items[i] != item
      {
        k := k + 1;
      }
    }

    /** An equal exchange was just answered: the queued copy is no longer needed. */
    method RemoveAnswered(item: T)
      requires Valid()
      modifies this
      ensures Valid() && item !in items && accepted == old(accepted) && heads == old(heads)
      ensures forall x :: x in items <==> x in old(items) && x != item
      ensures forall t: nat :: t in fates && t !in old(fates) ==> fates[t] == Answered && accepted[t] == item
      ensures forall t: nat :: t in old(fates) ==> t in fates && fates[t] == old(fates)[t]
    {
      var k := Find(item);
      if k == |items| {
        return;
      }
      ghost var ticket := tickets[k];
      RemovalKeeps(items, k);
      RemovalKeeps(tickets, k);
      items := items[..k] + items[k + 1..];
      tickets := tickets[..k] + tickets[k + 1..];
      fates := fates[ticket := Answered];
    }

    /** The socket is gone, and with it the server's staged learning: nothing may cross over. */
    method DropDisconnected()
      requires Valid()
      modifies this
      ensures Valid() && items == [] && accepted == old(accepted) && heads == old(heads)
      ensures forall t: nat :: t in fates && t !in old(fates) ==> fates[t] == Disconnected
      ensures forall t: nat :: t in old(fates) ==> t in fates && fates[t] == old(fates)[t]
    {
      fates := fates + map t | t in tickets :: Disconnected;
      items, tickets := [], [];
    }
  }

  lemma {:induction false} AppendLarger(s: seq<nat>, t: nat)
    requires Increasing(s) && forall h :: h in s ==> h < t
    ensures Increasing(s + [t]) && forall h :: h in s + [t] <==> h in s || h == t
  {
    forall i, j | 0 <= i < j < |s + [t]| ensures (s + [t])[i] < (s + [t])[j] {
      assert s[i] in s;
    }
  }

  lemma {:induction false} TailKeeps<T>(s: seq<T>)
    requires s != []
    ensures forall x :: x in s <==> x == s[0] || x in s[1..]
  {
    assert s == [s[0]] + s[1..];
  }

  lemma {:induction false} RemovalKeeps<T>(s: seq<T>, k: nat)
    requires k < |s| && forall i, j :: 0 <= i < j < |s| ==> s[i] != s[j]
    ensures forall x :: x in s[..k] + s[k + 1..] <==> x in s && x != s[k]
  {
    assert s == s[..k] + [s[k]] + s[k + 1..];
  }
}
