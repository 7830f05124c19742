// Working memory, the dependency graph and retraction by mark, verify, sweep.
module TruthMaintenance {
  import opened Rdf
  import opened Support

  function Lookup<K, V>(m: map<K, set<V>>, k: K): set<V> {
    if k in m then m[k] else {}
  }

  predicate Linked<K, V>(m: map<K, set<V>>, k: K, v: V) {
    k in m && v in m[k]
  }

  // The table m links x to every listed key, and is otherwise like the table.
  ghost predicate LinksPlus(table: map<Triple, set<Triple>>, m: map<Triple, set<Triple>>, keys: seq<Triple>, x: Triple) {
    forall k, v :: Linked(m, k, v) <==> Linked(table, k, v) || (v == x && k in keys)
  }

  lemma LinksStep(table: map<Triple, set<Triple>>, m: map<Triple, set<Triple>>, keys: seq<Triple>, key: Triple, x: Triple)
    requires LinksPlus(table, m, keys, x)
    ensures LinksPlus(table, m[key := Lookup(m, key) + {x}], keys + [key], x)
  {
    var more := m[key := Lookup(m, key) + {x}];
    forall k, v ensures Linked(more, k, v) <==> Linked(m, k, v) || (v == x && k == key) {
    }
  }

  // Both directions of the logical support between facts: Linked(antecedents,
  // c, a) says that fact a supports fact c.
  class DependencyGraph {
    var antecedents: map<Triple, set<Triple>>
    var consequents: map<Triple, set<Triple>>

    ghost predicate Mirrored()
      reads this
    {
      forall a, c :: Linked(consequents, a, c) <==> Linked(antecedents, c, a)
    }

    constructor ()
      ensures Mirrored() && antecedents == map[]
    {
      antecedents, consequents := map[], map[];
    }

    method AddSupport(c: Triple, premises: seq<Triple>)
      requires Mirrored()
      modifies this
      ensures Mirrored()
      ensures forall x, a :: Linked(antecedents, x, a) <==> Linked(old(antecedents), x, a) || (x == c && a in premises)
    {
      antecedents := antecedents[c := Lookup(antecedents, c) + set a | a in premises];
      ghost var edges := antecedents;
      for i := 0 to |premises|
        invariant antecedents == edges
        invariant LinksPlus(old(consequents), consequents, premises[..i], c)
      {
        LinksStep(old(consequents), consequents, premises[..i], premises[i], c);
        consequents := consequents[premises[i] := Lookup(consequents, premises[i]) + {c}];
        assert premises[..i + 1] == premises[..i] + [premises[i]];
      }
      assert premises[..|premises|] == premises;
    }

    // Remove every edge that involves this fact.
    method DiscardConsequent(x: Triple)
      requires Mirrored()
      modifies this
      ensures Mirrored()
      ensures forall c, a :: Linked(antecedents, c, a) <==> c != x && a != x && Linked(old(antecedents), c, a)
    {
      var supporting := Lookup(antecedents, x);
      antecedents := antecedents - {x};
      consequents := Unlink(consequents, x, supporting);
      var supported := Lookup(consequents, x);
      consequents := consequents - {x};
      antecedents := Unlink(antecedents, x, supported);
    }

    // Keep only these antecedents of a consequent whose justifications were trimmed.
    method UpdateConsequentEdges(c: Triple, kept: set<Triple>)
      requires Mirrored() && kept <= Lookup(antecedents, c)
      modifies this
      ensures Mirrored()
      ensures forall x, a :: Linked(antecedents, x, a) <==> if x == c then a in kept else Linked(old(antecedents), x, a)
    {
      var removed := Lookup(antecedents, c) - kept;
      antecedents := if kept == {} then antecedents - {c} else antecedents[c := kept];
      consequents := Unlink(consequents, c, removed);
    }
  }

  // Discard x from the row of every listed key; a row that becomes empty goes.
  method Unlink(table: map<Triple, set<Triple>>, x: Triple, keys: set<Triple>) returns (m: map<Triple, set<Triple>>)
    ensures forall k, v :: Linked(m, k, v) <==> Linked(table, k, v) && !(k in keys && v == x)
  {
    m := table;
    var pending := keys;
    while pending != {}
      invariant pending <= keys
      invariant forall k, v :: Linked(m, k, v) <==> Linked(table, k, v) && !(k in keys - pending && v == x)
    {
      var k :| k in pending;
      pending := pending - {k};
      m := UnlinkRow(m, k, x);
    }
  }

  function UnlinkRow(m: map<Triple, set<Triple>>, k: Triple, x: Triple): (r: map<Triple, set<Triple>>)
    ensures forall l, v :: Linked(r, l, v) <==> Linked(m, l, v) && !(l == k && v == x)
  {
    if k !in m then m
    else if m[k] - {x} == {} then
      assert forall v :: v in m[k] ==> v == x by {
        forall v | v in m[k] ensures v == x { assert v !in m[k] - {x}; }
      }
      m - {k}
    else m[k := m[k] - {x}]
  }

  function SetOf<T(==)>(q: seq<T>): set<T> {
    set x | x in q
  }

  method Enumerate<T(==)>(s: set<T>) returns (q: seq<T>)
    ensures forall x :: x in q <==> x in s
  {
    q := [];
    var rest := s;
    while rest != {}
      invariant forall x :: x in s <==> x in q || x in rest
    {
      var x :| x in rest;
      q := q + [x];
      rest := rest - {x};
    }
  }

  // The facts currently believed, each with its stated flag.
  class WorkingMemory {
    var facts: map<Triple, bool>

    constructor ()
      ensures facts == map[]
    {
      facts := map[];
    }

    predicate HasFact(t: Triple)
      reads this
    {
      t in facts
    }

    // Insert t, or promote it when it is now stated.
    method AddFact(t: Triple, stated: bool)
      modifies this
      ensures facts == old(facts)[t := stated || (t in old(facts) && old(facts)[t])]
    {
      if t in facts {
        if stated {
          facts := facts[t := true];
        }
      } else {
        facts := facts[t := stated];
      }
    }

    method RemoveFact(t: Triple)
      modifies this
      ensures facts == old(facts) - {t}
    {
      facts := facts - {t};
    }
  }

  function StatedIn(facts: map<Triple, bool>): set<Triple> {
    set t | t in facts && facts[t]
  }

  lemma StatedUpdate(facts: map<Triple, bool>, t: Triple)
    ensures StatedIn(facts[t := true]) == StatedIn(facts) + {t}
  {
  }

  lemma StatedCleared(facts: map<Triple, bool>, t: Triple)
    requires t in facts
    ensures StatedIn(facts[t := false]) == StatedIn(facts) - {t}
  {
  }

  lemma StatedDropped(facts: map<Triple, bool>, removed: set<Triple>)
    ensures StatedIn(facts - removed) == StatedIn(facts) - removed
  {
  }

  function AllJustifications(table: map<Triple, set<Justification>>): set<Justification> {
    set t, j | t in table && j in table[t] :: j
  }

  function AntecedentUnion(js: set<Justification>): set<Triple> {
    set j, a | j in js && a in j.antecedents :: a
  }

  datatype RetractionOutcome =
    | Rejected
    | Outcome(removed: set<Triple>, unstated: set<Triple>)

  // The justification table, as one value: each row belongs to a fact, is not
  // empty and rests on facts.
  ghost predicate TableOver(table: map<Triple, set<Justification>>, facts: set<Triple>) {
    forall t :: t in table ==>
      && t in facts && table[t] != {}
      && forall j :: j in table[t] ==> j.consequent == t && Grounded(j, facts)
  }

  class TMSController {
    const graph: DependencyGraph
    const memory: WorkingMemory
    var justifications: map<Triple, set<Justification>>

    ghost function Repr(): set<object> {
      {this, graph, memory}
    }

    // The dependency graph has exactly the edges of the recorded justifications.
    ghost predicate GraphMatches()
      reads this, graph
    {
      && graph.Mirrored()
      && forall c, a :: Linked(graph.antecedents, c, a) <==> a in AntecedentUnion(Lookup(justifications, c))
    }

    ghost predicate Valid()
      reads this, graph, memory
    {
      && TableOver(justifications, memory.facts.Keys)
      && GraphMatches()
    }

    ghost function Justified(): set<Justification>
      reads this
    {
      AllJustifications(justifications)
    }

    ghost function Stated(): set<Triple>
      reads memory
    {
      StatedIn(memory.facts)
    }

    constructor ()
      ensures Valid() && fresh(Repr())
      ensures memory.facts == map[] && Justified() == {}
    {
      graph := new DependencyGraph();
      memory := new WorkingMemory();
      justifications := map[];
    }

    method RegisterStated(triples: set<Triple>)
      requires Valid()
      modifies memory
      ensures Valid()
      ensures memory.facts.Keys == old(memory.facts.Keys) + triples
      ensures Stated() == old(Stated()) + triples
    {
      var pending := triples;
      while pending != {}
        invariant pending <= triples
        invariant memory.facts.Keys == old(memory.facts.Keys) + (triples - pending)
        invariant Stated() == old(Stated()) + (triples - pending)
      {
        var t :| t in pending;
        pending := pending - {t};
        StatedUpdate(memory.facts, t);
        memory.AddFact(t, true);
      }
    }

    // Assert one derived triple and attach the reason for it.
    method RecordDerivation(t: Triple, rule: string, premises: seq<Triple>)
      requires Valid() && forall a :: a in premises ==> a in memory.facts
      modifies Repr()
      ensures Valid()
      ensures memory.facts.Keys == old(memory.facts.Keys) + {t}
      ensures Stated() == old(Stated())
      ensures Justified() == old(Justified()) + {Justification(t, rule, premises)}
    {
      assert StatedIn(memory.facts[t := t in memory.facts && memory.facts[t]]) == StatedIn(memory.facts);
      memory.AddFact(t, false);
      var j := Justification(t, rule, premises);
      var supports := Lookup(justifications, t);
      if j !in supports {
        justifications := justifications[t := supports + {j}];
        graph.AddSupport(t, premises);
        TableExtended(old(justifications), justifications, j);
        forall a ensures a in AntecedentUnion(supports + {j}) <==> a in AntecedentUnion(supports) || a in premises {
          assert j in supports + {j};
        }
      }
    }

    // All facts that transitively depend on t.
    method TransitiveDependentsOf(t: Triple) returns (dependents: set<Triple>)
      requires Valid()
      ensures Downstream(Justified(), set k | k in Justified() && t in k.antecedents :: k.consequent, dependents)
    {
      forall c | c in Lookup(graph.consequents, t) ensures c in memory.facts {
        EdgesAreJustified(t, c);
      }
      dependents := Spread(Lookup(graph.consequents, t));
      ghost var direct := set k | k in Justified() && t in k.antecedents :: k.consequent;
      forall c ensures c in Lookup(graph.consequents, t) <==> c in direct {
        EdgesAreJustified(t, c);
      }
      assert Lookup(graph.consequents, t) == direct;
    }

    // Breadth over the consequents of the seeds.
    method Spread(seeds: set<Triple>) returns (reached: set<Triple>)
      requires Valid() && seeds <= memory.facts.Keys
      ensures Downstream(Justified(), seeds, reached) && reached <= memory.facts.Keys
    {
      reached := {};
      var pending := Enumerate(seeds);
      while pending != []
        invariant reached <= memory.facts.Keys
        invariant forall x :: x in pending ==> x in memory.facts
        invariant forall x :: x in seeds ==> x in reached || x in pending
        invariant forall a, c :: a in reached && Linked(graph.consequents, a, c) ==> c in reached || c in pending
        invariant forall E: set<Triple> :: seeds <= E && DownstreamClosed(Justified(), E) ==>
          reached <= E && forall x :: x in pending ==> x in E
        decreases memory.facts.Keys - reached, |pending|
      {
        var x := pending[|pending| - 1];
        pending := pending[..|pending| - 1];
        if x !in reached {
          var more := Enumerate(Lookup(graph.consequents, x));
          forall c | c in more
            ensures c in memory.facts && forall E: set<Triple> :: x in E && DownstreamClosed(Justified(), E) ==> c in E
          {
            EdgesAreJustified(x, c);
          }
          reached := reached + {x};
          pending := pending + more;
        }
      }
      assert DownstreamClosed(Justified(), reached) by {
        forall j, a | j in Justified() && a in j.antecedents && a in reached ensures j.consequent in reached {
          EdgesAreJustified(a, j.consequent);
        }
      }
    }

    // Retract a stated fact. A fact that also has a justification only loses
    // its stated flag; otherwise it is swept together with everything that
    // depends on it and has no other support.
    method RetractTriple(t: Triple) returns (outcome: RetractionOutcome)
      requires Valid()
      modifies Repr()
      ensures Valid()
      ensures t !in old(memory.facts) ==>
        outcome == Outcome({}, {}) && memory.facts == old(memory.facts) && justifications == old(justifications)
      ensures t in old(memory.facts) && !old(memory.facts)[t] ==>
        outcome == Rejected && memory.facts == old(memory.facts) && justifications == old(justifications)
      ensures t in old(Stated()) && (exists j :: j in old(Justified()) && j.consequent == t) ==>
        outcome == Outcome({}, {t}) && memory.facts == old(memory.facts)[t := false] && justifications == old(justifications)
      ensures t in old(Stated()) && (forall j :: j in old(Justified()) ==> j.consequent != t) ==>
        && outcome.Outcome? && outcome.unstated == {}
        && Swept(old(Justified()), old(memory.facts.Keys), old(Stated()), t, outcome.removed)
        && memory.facts == old(memory.facts) - outcome.removed
        && Justified() == Surviving(old(Justified()), outcome.removed)
        && outcome.removed * old(Stated()) == {t}
      ensures t in old(Stated()) ==> Stated() == old(Stated()) - {t}
    {
      if t !in memory.facts {
        return Outcome({}, {});
      }
      if !memory.facts[t] {
        return Rejected;
      }
      if t in justifications {
        var j :| j in justifications[t];
        assert j in Justified() && j.consequent == t;
        StatedCleared(memory.facts, t);
        memory.facts := memory.facts[t := false];
        return Outcome({}, {t});
      }
      assert forall j :: j in Justified() ==> j.consequent != t;
      var candidates := Spread({t});
      var kept := Verify(t, candidates);
      var swept := candidates - kept;
      StatedDropped(memory.facts, swept);
      Sweep(swept, kept);
      outcome := Outcome(swept, {});
    }

    // Which candidates other stated facts and facts outside still support.
    method Verify(seed: Triple, candidates: set<Triple>) returns (kept: set<Triple>)
      requires Valid() && seed in candidates && candidates <= memory.facts.Keys
      requires forall j :: j in Justified() ==> j.consequent != seed
      ensures kept <= candidates && seed !in kept
      ensures LeastSupported(Justified(), (memory.facts.Keys - candidates) + (Stated() - {seed}), memory.facts.Keys - (candidates - kept))
    {
      ghost var base := (memory.facts.Keys - candidates) + (Stated() - {seed});
      kept := {};
      var changed := true;
      while changed
        invariant kept <= candidates && seed !in kept
        invariant forall L: set<Triple> :: base <= L && SupportClosed(Justified(), L) ==> kept <= L
        invariant !changed ==> forall c :: c in candidates && c != seed && c !in kept ==> !Supportable(c, candidates, kept)
        decreases candidates - kept, changed
      {
        changed := false;
        ghost var before := kept;
        var pending := candidates;
        while pending != {}
          invariant pending <= candidates && before <= kept <= candidates && seed !in kept
          invariant forall L: set<Triple> :: base <= L && SupportClosed(Justified(), L) ==> kept <= L
          invariant changed <==> kept != before
          invariant !changed ==> forall c :: c in candidates - pending && c != seed && c !in kept ==> !Supportable(c, candidates, kept)
        {
          var c :| c in pending;
          pending := pending - {c};
          if c != seed && c !in kept && Supportable(c, candidates, kept) {
            KeepIsSound(seed, candidates, kept, c);
            kept := kept + {c};
            changed := true;
          }
        }
      }
      assert SupportClosed(Justified(), memory.facts.Keys - (candidates - kept)) by {
        forall j | j in Justified() && Grounded(j, memory.facts.Keys - (candidates - kept))
          ensures j.consequent in memory.facts.Keys - (candidates - kept)
        {
          assert j in justifications[j.consequent];
        }
      }
    }

    // The inner test of the verify pass.
    predicate Supportable(c: Triple, candidates: set<Triple>, kept: set<Triple>)
      requires c in memory.facts
      reads this, memory
    {
      || memory.facts[c]
      || exists j :: j in Lookup(justifications, c) && forall a :: a in j.antecedents ==> a !in candidates || a in kept
    }

    lemma KeepIsSound(seed: Triple, candidates: set<Triple>, kept: set<Triple>, c: Triple)
      requires Valid() && c in candidates && candidates <= memory.facts.Keys && c != seed && Supportable(c, candidates, kept)
      ensures forall L: set<Triple> ::
        (memory.facts.Keys - candidates) + (Stated() - {seed}) <= L && SupportClosed(Justified(), L) && kept <= L ==> c in L
    {
      if !memory.facts[c] {
        var j :| j in Lookup(justifications, c) && forall a :: a in j.antecedents ==> a !in candidates || a in kept;
        assert j in Justified();
        forall L: set<Triple> | (memory.facts.Keys - candidates) + (Stated() - {seed}) <= L && SupportClosed(Justified(), L) && kept <= L
          ensures c in L
        {
          assert Grounded(j, L);
        }
      }
    }

    // Drop the swept facts, then trim the justifications of the kept ones.
    method Sweep(swept: set<Triple>, kept: set<Triple>)
      requires Valid() && swept !! kept
      requires forall j, a :: j in Justified() && a in j.antecedents && a in swept ==> j.consequent in swept + kept
      modifies Repr()
      ensures Valid()
      ensures memory.facts == old(memory.facts) - swept
      ensures Justified() == Surviving(old(Justified()), swept)
    {
      ghost var table := justifications;
      RemoveSwept(swept);
      TrimKept(swept, kept);
      forall t ensures Lookup(justifications, t) == if t in swept then {} else Trim(Lookup(table, t), swept) {
        if t !in swept && t !in kept {
          UntouchedRow(table, swept, t);
        }
      }
      SweptTable(table, justifications, swept);
      forall t | t in justifications
        ensures t in memory.facts && forall j :: j in justifications[t] ==> j.consequent == t && Grounded(j, memory.facts.Keys)
      {
        assert Lookup(justifications, t) == justifications[t];
      }
    }

    method RemoveSwept(swept: set<Triple>)
      requires graph.Mirrored()
      modifies Repr()
      ensures graph.Mirrored()
      ensures memory.facts == old(memory.facts) - swept
      ensures justifications == old(justifications) - swept
      ensures forall c, a :: Linked(graph.antecedents, c, a) <==> c !in swept && a !in swept && Linked(old(graph.antecedents), c, a)
    {
      var pending := swept;
      while pending != {}
        invariant pending <= swept && graph.Mirrored()
        invariant memory.facts == old(memory.facts) - (swept - pending)
        invariant justifications == old(justifications) - (swept - pending)
        invariant forall c, a :: Linked(graph.antecedents, c, a) <==>
          c !in swept - pending && a !in swept - pending && Linked(old(graph.antecedents), c, a)
      {
        var x :| x in pending;
        pending := pending - {x};
        justifications := justifications - {x};
        graph.DiscardConsequent(x);
        memory.RemoveFact(x);
      }
    }

    method TrimKept(swept: set<Triple>, kept: set<Triple>)
      requires graph.Mirrored()
      requires forall t :: t in justifications ==> justifications[t] != {}
      requires forall k, a :: k in kept ==> (Linked(graph.antecedents, k, a) <==> a in AntecedentUnion(Lookup(justifications, k)) - swept)
      modifies this, graph
      ensures graph.Mirrored()
      ensures forall t :: t in justifications ==> justifications[t] != {}
      ensures forall t :: t in kept ==> Lookup(justifications, t) == Trim(Lookup(old(justifications), t), swept)
      ensures forall t :: t !in kept ==> Lookup(justifications, t) == Lookup(old(justifications), t)
      ensures forall c, a :: Linked(graph.antecedents, c, a) <==>
        if c in kept then a in AntecedentUnion(Lookup(justifications, c)) else Linked(old(graph.antecedents), c, a)
    {
      hide AntecedentUnion, Trim;
      ghost var edges, table := graph.antecedents, justifications;
      var pending := kept;
      while pending != {}
        invariant pending <= kept && graph.Mirrored()
        invariant forall t :: t in justifications ==> justifications[t] != {}
        invariant forall t :: t in kept - pending ==> Lookup(justifications, t) == Trim(Lookup(table, t), swept)
        invariant forall t :: t !in kept - pending ==> Lookup(justifications, t) == Lookup(table, t)
        invariant forall c, a :: Linked(graph.antecedents, c, a) <==>
          if c in kept - pending then a in AntecedentUnion(Trim(Lookup(table, c), swept)) else Linked(edges, c, a)
      {
        var k :| k in pending;
        pending := pending - {k};
        TrimRow(k, Lookup(table, k), swept);
      }
    }

    // A kept fact without justifications is left alone.
    method TrimRow(k: Triple, ghost js: set<Justification>, swept: set<Triple>)
      requires graph.Mirrored() && Lookup(justifications, k) == js
      requires forall t :: t in justifications ==> justifications[t] != {}
      requires forall a :: Linked(graph.antecedents, k, a) <==> a in AntecedentUnion(js) - swept
      modifies this, graph
      ensures graph.Mirrored()
      ensures forall t :: t in justifications ==> justifications[t] != {}
      ensures Lookup(justifications, k) == Trim(js, swept)
      ensures forall t :: t != k ==> Lookup(justifications, t) == Lookup(old(justifications), t)
      ensures forall c, a :: Linked(graph.antecedents, c, a) <==>
        if c == k then a in AntecedentUnion(Trim(js, swept)) else Linked(old(graph.antecedents), c, a)
    {
      TrimmedEdges(js, swept);
      if k in justifications {
        var surviving := Trim(justifications[k], swept);
        justifications := if surviving == {} then justifications - {k} else justifications[k := surviving];
        graph.UpdateConsequentEdges(k, AntecedentUnion(surviving));
      } else {
        assert Trim(js, swept) == {} && AntecedentUnion(js) == {};
      }
    }

    lemma EdgesAreJustified(a: Triple, c: Triple)
      requires Valid()
      ensures Linked(graph.consequents, a, c) <==> exists k :: k in Justified() && a in k.antecedents && k.consequent == c
    {
      if Linked(graph.consequents, a, c) {
        assert a in AntecedentUnion(Lookup(justifications, c));
      }
      if k :| k in Justified() && a in k.antecedents && k.consequent == c {
        assert a in AntecedentUnion(Lookup(justifications, c));
      }
    }
  }

  lemma TableExtended(table: map<Triple, set<Justification>>, table': map<Triple, set<Justification>>, j: Justification)
    requires table' == table[j.consequent := Lookup(table, j.consequent) + {j}]
    ensures AllJustifications(table') == AllJustifications(table) + {j}
  {
    var t := j.consequent;
    assert j in table'[t];
    forall k | k in AllJustifications(table) ensures k in AllJustifications(table') {
      var u :| u in table && k in table[u];
      assert u in table' && k in table'[u];
    }
  }

  // The justifications of one fact that mention no swept antecedent.
  function Trim(js: set<Justification>, swept: set<Triple>): set<Justification> {
    set j | j in js && forall a :: a in j.antecedents ==> a !in swept
  }

  lemma TrimmedEdges(js: set<Justification>, swept: set<Triple>)
    ensures AntecedentUnion(Trim(js, swept)) <= AntecedentUnion(js) - swept
  {
  }

  lemma UntouchedRow(table: map<Triple, set<Justification>>, swept: set<Triple>, t: Triple)
    requires forall j, a :: j in Lookup(table, t) && a in j.antecedents ==> a !in swept
    ensures Trim(Lookup(table, t), swept) == Lookup(table, t)
  {
  }

  lemma SweptTable(table: map<Triple, set<Justification>>, table': map<Triple, set<Justification>>, swept: set<Triple>)
    requires forall t, j :: t in table && j in table[t] ==> j.consequent == t
    requires forall t :: Lookup(table', t) == if t in swept then {} else Trim(Lookup(table, t), swept)
    ensures AllJustifications(table') == Surviving(AllJustifications(table), swept)
  {
    forall j ensures j in AllJustifications(table') <==> j in Surviving(AllJustifications(table), swept) {
      if j in AllJustifications(table') {
        var t :| t in table' && j in table'[t];
        assert j in Lookup(table', t);
      }
      if j in Surviving(AllJustifications(table), swept) {
        var t :| t in table && j in table[t];
        assert j in Lookup(table', t);
      }
    }
  }
}
