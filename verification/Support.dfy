// Logical support: what a set of justifications keeps alive.
module Support {
  import opened Rdf

  // One recorded reason for a fact.
  datatype Justification = Justification(consequent: Triple, rule: string, antecedents: seq<Triple>)

  predicate Grounded(j: Justification, K: set<Triple>) {
    forall a :: a in j.antecedents ==> a in K
  }

  ghost predicate SupportClosed(J: set<Justification>, K: set<Triple>) {
    forall j :: j in J && Grounded(j, K) ==> j.consequent in K
  }

  // K has exactly the facts with well-founded support from the base.
  ghost predicate LeastSupported(J: set<Justification>, base: set<Triple>, K: set<Triple>) {
    && base <= K
    && SupportClosed(J, K)
    && forall L: set<Triple> :: base <= L && SupportClosed(J, L) ==> K <= L
  }

  ghost predicate DownstreamClosed(J: set<Justification>, D: set<Triple>) {
    forall j, a :: j in J && a in j.antecedents && a in D ==> j.consequent in D
  }

  // D holds the seeds and everything that transitively depends on one of them.
  ghost predicate Downstream(J: set<Justification>, seeds: set<Triple>, D: set<Triple>) {
    && seeds <= D
    && DownstreamClosed(J, D)
    && forall E: set<Triple> :: seeds <= E && DownstreamClosed(J, E) ==> D <= E
  }

  // The justifications that mention no removed fact.
  function Surviving(J: set<Justification>, removed: set<Triple>): set<Justification> {
    set j | j in J && j.consequent !in removed && forall a :: a in j.antecedents ==> a !in removed
  }

  // What a sweep from seed promises: outside the seed's downstream nothing
  // changes, and inside it exactly the facts survive that other stated facts
  // or facts outside still support.
  ghost predicate Swept(J: set<Justification>, facts: set<Triple>, stated: set<Triple>, seed: Triple,
      removed: set<Triple>) {
    exists D: set<Triple> ::
      && Downstream(J, {seed}, D)
      && seed in removed && removed <= D <= facts
      && LeastSupported(J, (facts - D) + (stated - {seed}), facts - removed)
  }

  // A sweep keeps support well-founded: if the facts were exactly those
  // supported by a base, the remaining facts are exactly those supported by
  // what remains of the base.
  lemma SweepIsExact(J: set<Justification>, base: set<Triple>, facts: set<Triple>, stated: set<Triple>,
      seed: Triple, removed: set<Triple>)
    requires LeastSupported(J, base, facts) && stated <= base
    requires Swept(J, facts, stated, seed, removed)
    ensures LeastSupported(Surviving(J, removed), (base - {seed}) * (facts - removed), facts - removed)
  {
    var D: set<Triple> :|
      && Downstream(J, {seed}, D)
      && seed in removed && removed <= D <= facts
      && LeastSupported(J, (facts - D) + (stated - {seed}), facts - removed);
    var rest := facts - removed;
    forall L: set<Triple> | (base - {seed}) * rest <= L && SupportClosed(Surviving(J, removed), L)
      ensures rest <= L
    {
      var M := L * rest;
      SurvivorsClose(J, removed, rest, L);
      assert SupportClosed(J, M + D) by {
        forall j | j in J && Grounded(j, M + D) ensures j.consequent in M + D {
          if a :| a in j.antecedents && a in D {
          } else {
            assert Grounded(j, M);
          }
        }
      }
      assert base <= M + D;
      assert facts <= M + D;
      assert (facts - D) + (stated - {seed}) <= M;
    }
  }

  // A sweep leaves no choice.
  lemma SweptUnique(J: set<Justification>, facts: set<Triple>, stated: set<Triple>, seed: Triple, r1: set<Triple>, r2: set<Triple>)
    requires Swept(J, facts, stated, seed, r1) && Swept(J, facts, stated, seed, r2)
    ensures r1 == r2
  {
    var D: set<Triple> :|
      && Downstream(J, {seed}, D)
      && seed in r1 && r1 <= D <= facts
      && LeastSupported(J, (facts - D) + (stated - {seed}), facts - r1);
    var E: set<Triple> :|
      && Downstream(J, {seed}, E)
      && seed in r2 && r2 <= E <= facts
      && LeastSupported(J, (facts - E) + (stated - {seed}), facts - r2);
    assert D == E by {
      assert D <= E && E <= D;
    }
    assert facts - r1 == facts - r2;
    assert r1 == facts - (facts - r1) && r2 == facts - (facts - r2);
  }

  lemma SurvivorsClose(J: set<Justification>, removed: set<Triple>, rest: set<Triple>, L: set<Triple>)
    requires rest !! removed && SupportClosed(J, rest) && SupportClosed(Surviving(J, removed), L)
    ensures SupportClosed(J, L * rest)
  {
    forall j | j in J && Grounded(j, L * rest) ensures j.consequent in L * rest {
      assert Grounded(j, rest) && Grounded(j, L);
      assert j in Surviving(J, removed);
    }
  }

  // A justified fact that does not depend on itself is supported without its
  // stated flag.
  lemma IndependentSupport(J: set<Justification>, base: set<Triple>, facts: set<Triple>, t: Triple,
      j: Justification, D: set<Triple>)
    requires LeastSupported(J, base, facts)
    requires j in J && j.consequent == t && Grounded(j, facts)
    requires Downstream(J, set k | k in J && t in k.antecedents :: k.consequent, D) && t !in D
    ensures forall L: set<Triple> :: base - {t} <= L && SupportClosed(J, L) ==> t in L
  {
    forall L: set<Triple> | base - {t} <= L && SupportClosed(J, L) ensures t in L {
      var X := L + D + {t};
      assert SupportClosed(J, X) by {
        forall k | k in J && Grounded(k, X) ensures k.consequent in X {
          if a :| a in k.antecedents && a in D + {t} {
          } else {
            assert Grounded(k, L);
          }
        }
      }
      assert facts <= X;
      assert t in j.antecedents ==> t in D;
      assert forall a :: a in j.antecedents ==> a in X;
      assert Grounded(j, L);
    }
  }
}
