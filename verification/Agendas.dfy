// Scheduling of rule activations: salience first, then depth, then insertion order.
module Agendas {
  import opened Rules

  datatype Entry = Entry(salienceRank: int, depthRank: int, insertionRank: nat, action: Activation) {
    predicate Before(e: Entry) {
      || salienceRank < e.salienceRank
      || (salienceRank == e.salienceRank && depthRank < e.depthRank)
      || (salienceRank == e.salienceRank && depthRank == e.depthRank && insertionRank < e.insertionRank)
    }
  }

  // The join depth of a match: the number of beta joins behind it.
  function Depth(a: Activation): nat {
    if a.premises == [] then 0 else |a.premises| - 1
  }

  ghost predicate Scheduled(order: seq<Entry>) {
    forall i, j :: 0 <= i < j < |order| ==> order[i].Before(order[j])
  }

  // Told by the activations: a rule of higher salience first, then the one with
  // fewer premises, then the one that was put there first. One premise and none
  // make no difference.
  ghost predicate Ahead(a: Entry, b: Entry) {
    var p, q := |a.action.premises|, |b.action.premises|;
    || a.action.rule.salience > b.action.rule.salience
    || (a.action.rule.salience == b.action.rule.salience && p < q && q > 1)
    || (a.action.rule.salience == b.action.rule.salience && (p == q || (p <= 1 && q <= 1)) &&
          a.insertionRank < b.insertionRank)
  }

  // The entry was made for its activation.
  predicate Made(e: Entry) {
    e.salienceRank == -e.action.rule.salience && e.depthRank == Depth(e.action)
  }

  lemma BeforeIsAhead(a: Entry, b: Entry)
    requires Made(a) && Made(b)
    ensures a.Before(b) <==> Ahead(a, b)
  {
  }

  lemma ScheduledIsAhead(order: seq<Entry>)
    requires Scheduled(order) && forall x :: x in order ==> Made(x)
    ensures forall i, j :: 0 <= i < j < |order| ==> Ahead(order[i], order[j])
  {
    hide Made, Entry.Before, Ahead;
    forall i, j | 0 <= i < j < |order| ensures Ahead(order[i], order[j]) {
      BeforeIsAhead(order[i], order[j]);
    }
  }

  function Actions(order: seq<Entry>): seq<Activation> {
    seq(|order|, i requires 0 <= i < |order| => order[i].action)
  }

  lemma Removal(q: seq<Entry>, k: nat)
    requires k < |q|
    ensures var rest := q[..k] + q[k + 1..];
      && multiset(q) == multiset(rest) + multiset{q[k]}
      && forall i :: 0 <= i < |rest| ==> rest[i] == q[if i < k then i else i + 1]
  {
    assert q == q[..k] + [q[k]] + q[k + 1..];
  }

  class Agenda {
    // The heap, as an unordered collection.
    var entries: seq<Entry>
    var nextInsertionRank: nat

    // Insertion ranks are never reused, so no two entries tie.
    ghost predicate Valid()
      reads this
    {
      && (forall i, j :: 0 <= i < j < |entries| ==> entries[i].insertionRank != entries[j].insertionRank)
      && (forall i :: 0 <= i < |entries| ==> entries[i].insertionRank < nextInsertionRank)
      && forall i :: 0 <= i < |entries| ==> Made(entries[i])
    }

    constructor (actions: seq<Activation>)
      ensures Valid() && Actions(entries) == actions
    {
      entries, nextInsertionRank := [], 0;
      new;
      for i := 0 to |actions|
        invariant Valid() && Actions(entries) == actions[..i]
      {
        Enqueue(actions[i]);
      }
    }

    method Enqueue(a: Activation)
      requires Valid()
      modifies this
      ensures Valid()
      ensures entries == old(entries) + [Entry(-a.rule.salience, Depth(a), old(nextInsertionRank), a)]
      ensures Actions(entries) == old(Actions(entries)) + [a]
    {
      entries := entries + [Entry(-a.rule.salience, Depth(a), nextInsertionRank, a)];
      nextInsertionRank := nextInsertionRank + 1;
    }

    method Pop() returns (e: Entry)
      requires Valid() && entries != []
      modifies this
      ensures Valid()
      ensures multiset(old(entries)) == multiset(entries) + multiset{e}
      ensures forall x :: x in entries ==> e.Before(x)
    {
      var best := 0;
      for i := 1 to |entries|
        invariant 0 <= best < i
        invariant forall k :: 0 <= k < i && k != best ==> entries[best].Before(entries[k])
      {
        if entries[i].Before(entries[best]) {
          best := i;
        }
      }
      hide Made, Entry.Before;
      e := entries[best];
      Removal(entries, best);
      entries := entries[..best] + entries[best + 1..];
    }

    // All entries in priority order. Equal salience and depth keep insertion order.
    method Drain() returns (order: seq<Entry>)
      requires Valid()
      modifies this
      ensures entries == [] && Scheduled(order)
      ensures forall i, j :: 0 <= i < j < |order| ==> Ahead(order[i], order[j])
      ensures multiset(order) == multiset(old(entries))
    {
      hide Ahead, Made, Entry.Before;
      order := [];
      while entries != []
        invariant Valid() && Scheduled(order) && forall x :: x in order ==> Made(x)
        invariant multiset(order) + multiset(entries) == multiset(old(entries))
        invariant forall x, y :: x in order && y in entries ==> x.Before(y)
        decreases |entries|
      {
        ghost var before := entries;
        var e := Pop();
        assert |multiset(before)| == |multiset(entries)| + 1;
        assert forall x :: x in entries ==> x in multiset(before);
        assert e in multiset(before);
        order := order + [e];
      }
      ScheduledIsAhead(order);
    }
  }
}
