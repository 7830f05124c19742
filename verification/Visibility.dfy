// What the store gets to see of an engine's conclusions, and what it never sees.
module Visibility {
  import opened Rdf
  import opened Rules
  import opened TruthMaintenance
  import opened Engine
  import opened RetractionLimits

  // Every conclusion of every rule instance that is not silent is materialized.
  ghost predicate ShowsAll(prog: Program, known: set<Triple>, materialized: set<Triple>) {
    forall a :: Displays(prog, known, a) ==> Conclusions(a) <= materialized
  }

  // A warmed engine shows all there is to show if and only if it shows what
  // follows from the bootstrap rules alone.
  lemma ShowsAllIff(e: RETEEngine)
    requires e.Warmed()
    ensures ShowsAll(e.prog, e.known, e.materialized) <==> ShowsAll(e.prog, e.boot, e.materialized)
  {
    forall a | Displays(e.prog, e.boot, a) ensures Displays(e.prog, e.known, a) {
      ActivationMonotone(e.prog, true, a, e.boot, e.known);
    }
    hide IsActivation, Least;
  }

  // Of that a new engine shows nothing. It shows all if and only if no such
  // instance concludes anything, which can be told from the rules.
  method WarmedAlone(prog: Program) returns (e: RETEEngine)
    ensures fresh(e.Repr()) && e.Warmed() && e.prog == prog && e.known == e.boot && e.materialized == {}
    ensures ShowsAll(prog, e.known, e.materialized) <==>
      forall a :: Displays(prog, e.boot, a) ==> Conclusions(a) == {}
  {
    hide Manifest, NewlyMatched, Least, Displays, Conclusions;
    e := new RETEEngine(prog);
    var shown := e.Warmup({});
    KnownIsLeast(e);
    assert e.Stated() + e.lingering == {};
    LeastIsUnique(prog, true, {}, e.known, e.boot);
    hide RETEEngine.Warmed;
    assert e.materialized == shown;
    NothingManifest(e, shown);
  }

  // What was matched when the engine was warmed is hidden.
  lemma MatchedAtBoot(e: RETEEngine, a: Activation)
    requires e.Warmed() && Displays(e.prog, e.boot, a)
    ensures a in e.hidden
  {
    NotOverNothing(e.prog, a);
  }

  lemma NothingManifest(e: RETEEngine, shown: set<Triple>)
    requires e.Warmed() && e.known == e.boot
    requires forall t :: t in shown ==> Manifest(e.prog, e.known, e.hidden, t)
    ensures shown == {}
  {
    forall a | Displays(e.prog, e.known, a) ensures a in e.hidden {
      MatchedAtBoot(e, a);
    }
    hide Displays, RETEEngine.Warmed;
    assert forall t :: !Manifest(e.prog, e.known, e.hidden, t);
  }

  // A run. One rule without conditions gives (ann knows bob), and the symmetric
  // rule turns it round.

  const GREETING := Rule("greeting", [], [], [Pattern(Const(ANN), Const(KNOWS), Const(BOB))], 0, false)

  function Greeting(): Program {
    var rules := RuleSet([GREETING, SYMMETRIC], (name, args) => true);
    assert WellFormed(SYMMETRIC) by { SimpleWellFormed("symmetric", KNOWS, "y", "x"); }
    rules
  }

  lemma GreetingFires(K: set<Triple>)
    ensures var a := Activation(GREETING, [], map[]);
      IsActivation(Greeting(), true, a, K) && AB in Conclusions(a)
  {
    assert Greeting().rules[0] == GREETING;
    assert BodyVars([]) == {};
    assert GREETING.head[0] in GREETING.head;
  }

  lemma MirrorFires(K: set<Triple>)
    requires AB in K
    ensures var a := Activation(SYMMETRIC, [AB], map["x" := ANN, "y" := BOB]);
      Displays(Greeting(), K, a) && BA in Conclusions(a)
  {
    var a := Activation(SYMMETRIC, [AB], map["x" := ANN, "y" := BOB]);
    SimpleFires(SYMMETRIC, ANN, BOB, K);
    assert Greeting().rules[1] == SYMMETRIC;
    assert IsActivation(Demo(), false, a, K);
  }

  // Nothing but (ann knows bob) makes the rules conclude (bob knows ann).
  lemma OnlyMirror(a: Activation, K: set<Triple>)
    requires Displays(Greeting(), K, a) && BA in Conclusions(a)
    ensures a.premises == [AB]
  {
    assert a.rule == SYMMETRIC;
    assert Instantiate(a.rule.body[0], a.bindings) == a.premises[0];
    assert Instantiate(a.rule.head[0], a.bindings) == BA;
  }

  // The conclusion is never materialized, whatever is added later, the
  // conclusion itself included.
  method NeverMaterialized(additions: seq<set<Triple>>) returns (e: RETEEngine)
    ensures fresh(e.Repr()) && e.Valid() && BA in e.known && BA !in e.materialized
    ensures exists a :: Displays(e.prog, e.known, a) && BA in Conclusions(a)
  {
    hide Manifest, Displays, NewlyMatched, Least, Greeting, Conclusions;
    e := WarmedAlone(Greeting());
    BothKnown(e);
    for i := 0 to |additions|
      invariant fresh(e.Repr()) && e.Warmed() && e.prog == Greeting()
      invariant AB in e.boot && BA in e.known && BA !in e.materialized
    {
      var _ := e.AddTriples(additions[i]);
      NotManifest(e);
    }
    MirrorFires(e.known);
  }

  lemma BothKnown(e: RETEEngine)
    requires e.Warmed() && e.prog == Greeting()
    ensures AB in e.boot && BA in e.known
  {
    GreetingFires(e.boot);
    MirrorFires(e.boot);
  }

  lemma NotManifest(e: RETEEngine)
    requires e.Warmed() && e.prog == Greeting() && AB in e.boot
    ensures !Manifest(e.prog, e.known, e.hidden, BA)
  {
    forall a | Displays(e.prog, e.known, a) && BA in Conclusions(a) ensures a in e.hidden {
      OnlyMirror(a, e.known);
      ActivationMonotone(e.prog, true, a, e.known, e.boot);
      MatchedAtBoot(e, a);
    }
  }
}
