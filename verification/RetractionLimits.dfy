// Concrete runs in which retraction and recomputation disagree.
module RetractionLimits {
  import opened Rdf
  import opened Rules
  import opened Support
  import opened TruthMaintenance
  import opened Engine
  import opened Incremental

  const KNOWS := IRI("knows")
  const ASKS := IRI("asks")
  const ANN := IRI("ann")
  const BOB := IRI("bob")

  // One condition (?x premise ?y), one conclusion over the same variables.
  function Simple(id: string, premise: Node, s: string, o: string): Rule {
    Rule(id, [Pattern(Var("x"), Const(premise), Var("y"))], [], [Pattern(Var(s), Const(KNOWS), Var(o))], 0, false)
  }

  // (?x knows ?y) gives (?y knows ?x), and (?x asks ?y) gives (?x knows ?y).
  const SYMMETRIC := Simple("symmetric", KNOWS, "y", "x")
  const ASKING := Simple("asking", ASKS, "x", "y")

  function Demo(): Program {
    var rules := RuleSet([SYMMETRIC, ASKING], (name, args) => true);
    assert WellFormed(SYMMETRIC) by { SimpleWellFormed("symmetric", KNOWS, "y", "x"); }
    assert WellFormed(ASKING) by { SimpleWellFormed("asking", ASKS, "x", "y"); }
    rules
  }

  const AB := Triple(ANN, KNOWS, BOB)
  const BA := Triple(BOB, KNOWS, ANN)
  const ASK := Triple(ANN, ASKS, BOB)

  lemma SimpleBody(premise: Node)
    ensures BodyVars([Pattern(Var("x"), Const(premise), Var("y"))]) == {"x", "y"}
  {
    var p := Pattern(Var("x"), Const(premise), Var("y"));
    SingletonSubstitution(p, map[], Triple(premise, premise, premise));
    assert PatternVars(p) == {"x", "y"};
  }

  lemma SimpleWellFormed(id: string, premise: Node, s: string, o: string)
    requires s in {"x", "y"} && o in {"x", "y"}
    ensures WellFormed(Simple(id, premise, s, o))
  {
    SimpleBody(premise);
  }

  // What the demo rules conclude from one fact.
  lemma SimpleFires(r: Rule, x: Node, y: Node, K: set<Triple>)
    requires r == SYMMETRIC || r == ASKING
    requires Triple(x, r.body[0].p.node, y) in K
    ensures var a := Activation(r, [Triple(x, r.body[0].p.node, y)], map["x" := x, "y" := y]);
      && IsActivation(Demo(), false, a, K)
      && (IsResource(x) && IsResource(y) ==> Conclusions(a) == {if r == SYMMETRIC then Triple(y, KNOWS, x) else Triple(x, KNOWS, y)})
  {
    var b := map["x" := x, "y" := y];
    var p := r.body[0];
    assert r.body == [p];
    SimpleBody(p.p.node);
    SingletonSubstitution(p, b, Triple(x, p.p.node, y));
    assert PatternVars(r.head[0]) == {"x", "y"};
    assert r in Demo().rules by { assert Demo().rules[0] == SYMMETRIC && Demo().rules[1] == ASKING; }
    assert r.head == [r.head[0]];
  }

  lemma SimpleConcludes(a: Activation, K: set<Triple>, t: Triple)
    requires IsActivation(Demo(), false, a, K) && t in Conclusions(a)
    ensures |a.premises| == 1 && a.premises[0] in K
    ensures a.premises[0].p == KNOWS || a.premises[0].p == ASKS
    ensures t == if a.premises[0].p == KNOWS then Triple(a.premises[0].o, KNOWS, a.premises[0].s)
                 else Triple(a.premises[0].s, KNOWS, a.premises[0].o)
  {
    assert a.rule == SYMMETRIC || a.rule == ASKING;
    assert Instantiate(a.rule.body[0], a.bindings) == a.premises[0];
    assert a.premises[0] in a.premises;
  }

  // With no facts nothing follows.
  lemma NothingFromNothing()
    ensures Closed(Demo(), false, {})
  {
    forall a, t | IsActivation(Demo(), false, a, {}) && t in Conclusions(a) ensures false {
      SimpleConcludes(a, {}, t);
    }
  }

  // A fact with one justification that goes round to itself: stated and then
  // retracted, it stays known although nothing is stated any more.
  method SymmetricFactIsNotRetracted() returns (e: RETEEngine, cascade: set<Triple>)
    ensures fresh(e.Repr()) && e.Valid()
    ensures cascade == {} && e.Stated() == {} && AB in e.known
    ensures !Least(e.prog, e.bootstrapCompleted, e.Stated(), e.known)
  {
    e := new RETEEngine(Demo());
    var _ := e.AddTriples({AB});
    AssertedTwice(e);
    ghost var J, stated, known := e.tms.Justified(), e.Stated(), e.known;
    DerivableIffJustified(J, Demo(), false, known, AB);
    cascade := e.RetractTriples({AB});
    RetractsSupported(J, known, stated, {AB}, cascade);
    NothingFromNothing();
  }

  lemma AssertedTwice(e: RETEEngine)
    requires e.Valid() && e.prog == Demo() && !e.bootstrapCompleted && AB in e.known
    ensures BA in e.known && Derivable(Demo(), false, e.known, AB)
  {
    KnownIsLeast(e);
    SimpleFires(SYMMETRIC, ANN, BOB, e.known);
    SimpleFires(SYMMETRIC, BOB, ANN, e.known);
  }

  // What one call with two inputs removes depends on which it visits first:
  // from one and the same state everything goes, or the fact stays.
  method OrderMatters() returns (e: RETEEngine, f: RETEEngine, ghost J: set<Justification>)
    ensures fresh(e.Repr()) && e.Valid() && fresh(f.Repr()) && f.Valid()
    ensures Recorded(J, Demo(), false, {AB, BA, ASK})
    ensures Removals(J, {AB, BA, ASK}, {AB, ASK}, [AB, ASK], {AB, BA, ASK} - e.known)
    ensures Removals(J, {AB, BA, ASK}, {AB, ASK}, [ASK, AB], {AB, BA, ASK} - f.known)
    ensures e.Stated() == f.Stated() == {}
    ensures e.known == {} && AB in f.known
  {
    hide Recorded, Removals, Demo, RETEEngine.Valid;
    ghost var L;
    e, J := BothRetracted([AB, ASK]);
    f, L := BothRetracted([ASK, AB]);
    OrdersDiffer(J, L, e.known, f.known);
  }

  lemma OrdersDiffer(J: set<Justification>, L: set<Justification>, k1: set<Triple>, k2: set<Triple>)
    requires Recorded(J, Demo(), false, {AB, BA, ASK}) && Recorded(L, Demo(), false, {AB, BA, ASK})
    requires k1 <= {AB, BA, ASK} && k2 <= {AB, BA, ASK}
    requires Removals(J, {AB, BA, ASK}, {AB, ASK}, [AB, ASK], {AB, BA, ASK} - k1)
    requires Removals(L, {AB, BA, ASK}, {AB, ASK}, [ASK, AB], {AB, BA, ASK} - k2)
    ensures J == L && k1 == {} && AB in k2
  {
    hide Recorded, Removals, Demo;
    RecordedUnique(J, L, Demo(), false, {AB, BA, ASK});
    FactFirst(J, {AB, BA, ASK} - k1);
    SourceFirst(L, {AB, BA, ASK} - k2);
  }

  // One call on the state in which both are stated.
  method BothRetracted(order: seq<Triple>) returns (e: RETEEngine, ghost J: set<Justification>)
    requires order == [AB, ASK] || order == [ASK, AB]
    ensures fresh(e.Repr()) && e.Valid() && e.Stated() == {} && e.known <= {AB, BA, ASK}
    ensures Recorded(J, Demo(), false, {AB, BA, ASK})
    ensures Removals(J, {AB, BA, ASK}, {AB, ASK}, order, {AB, BA, ASK} - e.known)
  {
    hide Recorded, Removals, Demo, RETEEngine.Valid;
    e := BothStated();
    J := e.tms.Justified();
    assert SetOf([AB, ASK]) == SetOf([ASK, AB]) == {AB, ASK};
    var cascade := e.RetractInOrder(order);
    assert {AB, BA, ASK} - e.known == cascade;
  }

  method BothStated() returns (e: RETEEngine)
    ensures fresh(e.Repr()) && e.Valid() && e.prog == Demo() && !e.bootstrapCompleted
    ensures e.known == {AB, BA, ASK} && e.Stated() == {AB, ASK}
    ensures Recorded(e.tms.Justified(), Demo(), false, {AB, BA, ASK})
  {
    hide Demo, Manifest;
    e := new RETEEngine(Demo());
    var _ := e.AddTriples({AB, ASK});
    assert e.Stated() + e.lingering == {AB, ASK};
    KnownOf(e);
    EngineFacts(e);
  }

  lemma KnownOf(e: RETEEngine)
    requires e.Valid() && e.prog == Demo() && !e.bootstrapCompleted
    requires e.Stated() + e.lingering == {AB, ASK}
    ensures e.known == {AB, BA, ASK}
  {
    hide IsActivation, Conclusions, Demo;
    KnownIsLeast(e);
    assert AB in e.Stated() + e.lingering && ASK in e.Stated() + e.lingering;
    AssertedTwice(e);
    ThreeFactsClosed();
    hide RETEEngine.Valid, Closed;
    assert e.known <= {AB, BA, ASK};
  }

  lemma ThreeFactsClosed()
    ensures Closed(Demo(), false, {AB, BA, ASK})
  {
    hide IsActivation, Conclusions;
    var K := {AB, BA, ASK};
    forall a, t | IsActivation(Demo(), false, a, K) && t in Conclusions(a) ensures t in K {
      SimpleConcludes(a, K, t);
    }
  }

  lemma ThreeFactsJustified(J: set<Justification>)
    requires Recorded(J, Demo(), false, {AB, BA, ASK})
    ensures Justification(AB, "asking", [ASK]) in J && Justification(BA, "symmetric", [AB]) in J
    ensures Justification(AB, "symmetric", [BA]) in J
    ensures forall j :: j in J ==> j.antecedents != [] && j.consequent != ASK
  {
    hide IsActivation, Conclusions;
    var K := {AB, BA, ASK};
    SimpleFires(ASKING, ANN, BOB, K);
    SimpleFires(SYMMETRIC, ANN, BOB, K);
    SimpleFires(SYMMETRIC, BOB, ANN, K);
    forall j | j in J ensures j.antecedents != [] && j.consequent != ASK {
      var a :| IsActivation(Demo(), false, a, K) && j in JustificationsOf(a);
      SimpleConcludes(a, K, j.consequent);
    }
  }

  // First the fact: it only loses its flag, and then goes with its source.
  lemma FactFirst(J: set<Justification>, cascade: set<Triple>)
    requires Recorded(J, Demo(), false, {AB, BA, ASK})
    requires Removals(J, {AB, BA, ASK}, {AB, ASK}, [AB, ASK], cascade)
    ensures {AB, BA, ASK} - cascade == {}
  {
    hide Recorded, Demo, Swept;
    var K := {AB, BA, ASK};
    ThreeFactsJustified(J);
    assert [AB, ASK][..1] == [AB];
    var gone, removed :|
      && Removals(J, K, {AB, ASK}, [AB], gone) && cascade == gone + removed
      && Removes(Surviving(J, gone), K - gone, {AB, ASK} - SetOf([AB]), ASK, removed);
    RemovalsOfSupported(J, K, {AB, ASK}, [AB], gone);
    SurvivingAll(J);
    assert K - gone == K && {AB, ASK} - SetOf([AB]) == {ASK};
    SweptAway(J, removed);
  }

  // Everything depends on the one stated fact, so the sweep leaves nothing.
  lemma SweptAway(J: set<Justification>, removed: set<Triple>)
    requires Recorded(J, Demo(), false, {AB, BA, ASK})
    requires Swept(J, {AB, BA, ASK}, {ASK}, ASK, removed)
    ensures {AB, BA, ASK} - removed == {}
  {
    hide Recorded, SupportClosed, Demo;
    var K := {AB, BA, ASK};
    var D: set<Triple> :| Downstream(J, {ASK}, D) && removed <= D <= K &&
      LeastSupported(J, (K - D) + ({ASK} - {ASK}), K - removed);
    AllDownstream(J, D);
    assert (K - D) + ({ASK} - {ASK}) == {};
    NothingUnfounded(J);
  }

  lemma AllDownstream(J: set<Justification>, D: set<Triple>)
    requires Recorded(J, Demo(), false, {AB, BA, ASK}) && Downstream(J, {ASK}, D)
    ensures {AB, BA, ASK} <= D
  {
    ThreeFactsJustified(J);
    hide Recorded, Demo;
    assert ASK in [ASK] && AB in [AB];
    assert AB in D && BA in D;
  }

  lemma NothingUnfounded(J: set<Justification>)
    requires Recorded(J, Demo(), false, {AB, BA, ASK})
    ensures SupportClosed(J, {})
  {
    ThreeFactsJustified(J);
    hide Recorded, Demo;
    forall j | j in J ensures !Grounded(j, {}) {
      assert j.antecedents[0] in j.antecedents;
    }
  }

  // First the source: the fact is still stated and stays, and then the fact
  // itself is justified by its mirror image.
  lemma SourceFirst(J: set<Justification>, cascade: set<Triple>)
    requires Recorded(J, Demo(), false, {AB, BA, ASK})
    requires Removals(J, {AB, BA, ASK}, {AB, ASK}, [ASK, AB], cascade)
    ensures AB !in cascade
  {
    hide Recorded, Demo, Swept;
    var K := {AB, BA, ASK};
    ThreeFactsJustified(J);
    assert [ASK, AB][..1] == [ASK];
    var gone, removed :|
      && Removals(J, K, {AB, ASK}, [ASK], gone) && cascade == gone + removed
      && Removes(Surviving(J, gone), K - gone, {AB, ASK} - SetOf([ASK]), AB, removed);
    assert SetOf([ASK]) == {ASK};
    RemovalsOfOne(J, K, {AB, ASK}, ASK, [ASK], gone);
    PairStays(J, gone);
    assert Justification(AB, "symmetric", [BA]) in Surviving(J, gone);
  }

  lemma PairStays(J: set<Justification>, removed: set<Triple>)
    requires Recorded(J, Demo(), false, {AB, BA, ASK})
    requires Swept(J, {AB, BA, ASK}, {AB, ASK}, ASK, removed)
    ensures AB !in removed && BA !in removed
  {
    var K := {AB, BA, ASK};
    var D: set<Triple> :| Downstream(J, {ASK}, D) && removed <= D <= K &&
      LeastSupported(J, (K - D) + ({AB, ASK} - {ASK}), K - removed);
    ThreeFactsJustified(J);
    hide Recorded;
    assert AB in (K - D) + ({AB, ASK} - {ASK});
    assert Grounded(Justification(BA, "symmetric", [AB]), K - removed);
  }
}
