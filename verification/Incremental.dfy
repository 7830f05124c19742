// Does the incremental engine agree with recomputing the closure from scratch?
module Incremental {
  import opened Rdf
  import opened Rules
  import opened Support
  import opened TruthMaintenance
  import opened Engine

  // The engine agrees with a recomputation from its stated triples
  // exactly when these still entail every triple whose retraction had no effect.
  lemma ExactIffLingeringEntailed(e: RETEEngine)
    requires e.Valid()
    ensures Least(e.prog, e.bootstrapCompleted, e.Stated(), e.known) <==>
      forall t :: t in e.lingering ==> Entailed(e.prog, e.bootstrapCompleted, e.Stated(), t)
  {
    KnownIsLeast(e);
    LeastAbsorbs(e.prog, e.bootstrapCompleted, e.Stated(), e.lingering, e.known);
  }

  lemma RemovesItself(J: set<Justification>, facts: set<Triple>, stated: set<Triple>, t: Triple, removed: set<Triple>)
    requires t in stated && Removes(J, facts, stated, t, removed)
    ensures t in removed <==> forall j :: j in J ==> j.consequent != t
  {
  }

  // Retracting one stated triple from an exact engine leaves an exact engine
  // if and only if the triple had no justification or is still entailed.
  method RetractOne(e: RETEEngine, t: Triple) returns (cascade: set<Triple>)
    requires e.Valid() && e.lingering == {} && t in e.Stated()
    modifies e.Repr()
    ensures e.Valid() && e.bootstrapCompleted == old(e.bootstrapCompleted)
    ensures e.Stated() == old(e.Stated()) - {t}
    ensures cascade == old(e.known) - e.known
    ensures Least(e.prog, e.bootstrapCompleted, e.Stated(), e.known) <==>
      || !Derivable(e.prog, e.bootstrapCompleted, old(e.known), t)
      || Entailed(e.prog, e.bootstrapCompleted, e.Stated(), t)
  {
    hide Recorded, LeastSupported, Retracts, Derivable, Entailed, Least, Swept;
    ghost var J, stated, known := e.tms.Justified(), e.Stated(), e.known;
    DerivableIffJustified(J, e.prog, e.bootstrapCompleted, known, t);
    cascade := e.RetractTriples({t});
    RetractsOne(J, known, stated, t, cascade);
    assert t in cascade <==> !Derivable(e.prog, e.bootstrapCompleted, known, t) by { RemovesItself(J, known, stated, t, cascade); }
    hide RETEEngine.Valid;
    ExactIffLingeringEntailed(e);
    assert e.lingering == {t} * e.known;
  }

  // A triple that is not among its own transitive dependents can be retracted:
  // whatever justifies it does not go through itself.
  lemma AcyclicSupportIsEntailment(J: set<Justification>, prog: Program, booted: bool, stated: set<Triple>,
                                   known: set<Triple>, t: Triple, dependents: set<Triple>)
    requires Recorded(J, prog, booted, known) && LeastSupported(J, stated, known)
    requires forall j :: j in J ==> j.consequent in known && Grounded(j, known)
    requires Downstream(J, set k | k in J && t in k.antecedents :: k.consequent, dependents) && t !in dependents
    requires Derivable(prog, booted, known, t)
    ensures Entailed(prog, booted, stated - {t}, t)
  {
    DerivableIffJustified(J, prog, booted, known, t);
    var j :| j in J && j.consequent == t;
    IndependentSupport(J, stated, known, t, j, dependents);
    hide Recorded, LeastSupported, Downstream, Closed;
    forall L: set<Triple> | stated - {t} <= L && Closed(prog, booted, L) ensures t in L {
      ClosedIsSupportClosed(J, prog, booted, known, L);
      assert stated - {t} <= L * known by { StatedKnown(J, stated, known); }
    }
  }

  lemma StatedKnown(J: set<Justification>, stated: set<Triple>, known: set<Triple>)
    requires LeastSupported(J, stated, known)
    ensures stated <= known
  {
  }

  // The check a caller can make before the call.
  method RetractIfIndependent(e: RETEEngine, t: Triple) returns (done: bool)
    requires e.Valid() && e.lingering == {} && t in e.Stated()
    modifies e.Repr()
    ensures e.Valid()
    ensures done ==> e.Stated() == old(e.Stated()) - {t} && Least(e.prog, e.bootstrapCompleted, e.Stated(), e.known)
    ensures !done ==> e.Stated() == old(e.Stated()) && e.known == old(e.known)
  {
    hide Recorded, LeastSupported, Least, Derivable, Entailed;
    var dependents := e.tms.TransitiveDependentsOf(t);
    done := t !in dependents;
    if done {
      EngineFacts(e);
      assert e.Stated() + e.lingering == e.Stated();
      if Derivable(e.prog, e.bootstrapCompleted, e.known, t) {
        AcyclicSupportIsEntailment(e.tms.Justified(), e.prog, e.bootstrapCompleted, e.Stated(), e.known, t, dependents);
      }
      hide RETEEngine.Valid;
      var _ := RetractOne(e, t);
    }
  }

  // The same retraction a second time finds nothing left to do.
  method RetractTwice(e: RETEEngine, inputs: set<Triple>) returns (first: set<Triple>, second: set<Triple>)
    requires e.Valid()
    modifies e.Repr()
    ensures e.Valid() && second == {}
    ensures first == old(e.known) - e.known && e.Stated() == old(e.Stated()) - inputs
  {
    hide Derivable;
    first := e.RetractTriples(inputs);
    assert inputs * e.Stated() == {};
    ghost var J, stated, known := e.tms.Justified(), e.Stated(), e.known;
    second := e.RetractTriples(inputs);
    RetractsSupported(J, known, stated, inputs, second);
  }

  // Whole runs

  datatype Call = Add(triples: set<Triple>) | Retract(triples: set<Triple>)

  function Retracted(calls: seq<Call>): set<Triple> {
    set i, t | 0 <= i < |calls| && calls[i].Retract? && t in calls[i].triples :: t
  }

  // Any sequence of additions and retractions, each visited in any order. If
  // no retracted triple is still known at the end, the engine is exact.
  method Run(e: RETEEngine, calls: seq<Call>)
    requires e.Valid()
    modifies e.Repr()
    ensures e.Valid()
    ensures Least(e.prog, e.bootstrapCompleted, e.Stated() + e.lingering, e.known)
    ensures e.lingering <= old(e.lingering) + Retracted(calls)
    ensures old(e.lingering) == {} && Retracted(calls) !! e.known ==>
      Least(e.prog, e.bootstrapCompleted, e.Stated(), e.known)
  {
    for i := 0 to |calls|
      invariant e.Valid()
      invariant e.lingering <= old(e.lingering) + Retracted(calls[..i])
    {
      match calls[i] {
        case Add(triples) => var _ := e.AddTriples(triples);
        case Retract(triples) => var _ := e.RetractTriples(triples);
      }
      assert forall t :: t in Retracted(calls[..i + 1]) <==>
        t in Retracted(calls[..i]) || (calls[i].Retract? && t in calls[i].triples) by { RetractedStep(calls, i); }
    }
    assert calls[..|calls|] == calls;
    KnownIsLeast(e);
    ExactIffLingeringEntailed(e);
  }

  lemma RetractedStep(calls: seq<Call>, i: nat)
    requires i < |calls|
    ensures Retracted(calls[..i + 1]) == Retracted(calls[..i]) + if calls[i].Retract? then calls[i].triples else {}
  {
    var before, after := calls[..i], calls[..i + 1];
    forall t ensures t in Retracted(after) <==> t in Retracted(before) || (calls[i].Retract? && t in calls[i].triples) {
      if t in Retracted(before) {
        var k :| 0 <= k < i && before[k].Retract? && t in before[k].triples;
        assert after[k] == before[k];
      }
      if calls[i].Retract? && t in calls[i].triples {
        assert after[i] == calls[i];
      }
    }
  }

  // From scratch: a new engine warmed with the stated triples. It knows no
  // more than the incremental one, and the same if and only if it knows the
  // lingering triples.
  method Rebuild(e: RETEEngine, stated: set<Triple>) returns (f: RETEEngine)
    requires e.Valid() && e.bootstrapCompleted && stated == e.Stated()
    ensures fresh(f.Repr()) && f.Valid() && f.prog == e.prog && f.lingering == {}
    ensures f.known <= e.known
    ensures f.known == e.known <==> e.lingering <= f.known
  {
    hide Manifest, NewlyMatched, Closed;
    f := new RETEEngine(e.prog);
    var _ := f.Warmup(stated);
    KnownIsLeast(f);
    KnownIsLeast(e);
    assert f.Stated() + f.lingering == f.Stated();
    assert e.Stated() <= f.known by {
      forall t | t in e.Stated() ensures t in f.known {
        assert Permitted(t);
      }
    }
  }
}
