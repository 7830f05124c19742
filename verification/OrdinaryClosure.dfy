// The engine's closure and the one a reader of the rules expects. The engine
// never uses one fact for two conditions and never fires a rule that has guards
// only, so the two can differ.
module OrdinaryClosure {
  import opened Rdf
  import opened Rules
  import opened Engine
  import opened RetractionLimits

  // A rule instance in the ordinary sense.
  ghost predicate IsInstance(prog: Program, booted: bool, a: Activation, K: set<Triple>) {
    && a.rule in prog.rules
    && Substitutes(a.rule.body, a.bindings, a.premises)
    && (forall t :: t in a.premises ==> t in K)
    && GuardsPass(prog.hooks, a.rule.guards, a.bindings)
    && (a.rule.Bootstrap() ==> booted)
  }

  ghost predicate OrdinarilyClosed(prog: Program, booted: bool, K: set<Triple>) {
    forall a :: IsInstance(prog, booted, a, K) ==> Conclusions(a) <= K
  }

  ghost predicate OrdinarilyLeast(prog: Program, booted: bool, base: set<Triple>, K: set<Triple>) {
    && base <= K
    && OrdinarilyClosed(prog, booted, K)
    && forall L: set<Triple> :: base <= L && OrdinarilyClosed(prog, booted, L) ==> K <= L
  }

  // An instance the engine never fires: it uses a fact twice, or its rule has
  // guards only.
  ghost predicate Missed(prog: Program, booted: bool, a: Activation, K: set<Triple>) {
    IsInstance(prog, booted, a, K) && (!Distinct(a.premises) || (a.rule.body == [] && a.rule.guards != []))
  }

  lemma InstanceSplits(prog: Program, booted: bool, a: Activation, K: set<Triple>)
    ensures IsInstance(prog, booted, a, K) <==> IsActivation(prog, booted, a, K) || Missed(prog, booted, a, K)
  {
  }

  // A closed set is closed in the ordinary sense if and only if it has what the
  // missed instances conclude.
  lemma ClosedIff(prog: Program, booted: bool, K: set<Triple>)
    ensures OrdinarilyClosed(prog, booted, K) <==>
      Closed(prog, booted, K) && forall a :: Missed(prog, booted, a, K) ==> Conclusions(a) <= K
  {
    forall a ensures IsInstance(prog, booted, a, K) <==> IsActivation(prog, booted, a, K) || Missed(prog, booted, a, K) {
      InstanceSplits(prog, booted, a, K);
    }
    hide IsInstance, IsActivation, Missed, Conclusions;
  }

  // And then the two closures of a base are the same.
  lemma LeastIff(prog: Program, booted: bool, base: set<Triple>, K: set<Triple>)
    requires Least(prog, booted, base, K)
    ensures OrdinarilyLeast(prog, booted, base, K) <==>
      forall a :: Missed(prog, booted, a, K) ==> Conclusions(a) <= K
  {
    forall L: set<Triple> ensures OrdinarilyClosed(prog, booted, L) <==>
      Closed(prog, booted, L) && forall a :: Missed(prog, booted, a, L) ==> Conclusions(a) <= L
    {
      ClosedIff(prog, booted, L);
    }
    hide OrdinarilyClosed, Closed, Missed, Conclusions;
  }

  // What an engine knows is the ordinary closure of what it rests on if and
  // only if it knows what the missed instances conclude.
  lemma KnownIsOrdinaryIff(e: RETEEngine)
    requires e.Valid()
    ensures OrdinarilyLeast(e.prog, e.bootstrapCompleted, e.Stated() + e.lingering, e.known) <==>
      forall a :: Missed(e.prog, e.bootstrapCompleted, a, e.known) ==> Conclusions(a) <= e.known
  {
    KnownIsLeast(e);
    hide RETEEngine.Valid;
    LeastIff(e.prog, e.bootstrapCompleted, e.Stated() + e.lingering, e.known);
  }

  // t is in every set that contains the base and is closed in the ordinary sense.
  ghost predicate OrdinarilyEntailed(prog: Program, booted: bool, base: set<Triple>, t: Triple) {
    forall K: set<Triple> :: base <= K && OrdinarilyClosed(prog, booted, K) ==> t in K
  }

  function PremisesOf(a: Activation): set<Triple> {
    set t | t in a.premises
  }

  // The engine gets what the instance concludes from its premises in another way.
  ghost predicate Dispensable(prog: Program, booted: bool, a: Activation) {
    forall t :: t in Conclusions(a) ==> Entailed(prog, booted, PremisesOf(a), t)
  }

  ghost predicate AllDispensable(prog: Program, booted: bool) {
    forall a :: Missed(prog, booted, a, PremisesOf(a)) ==> Dispensable(prog, booted, a)
  }

  lemma OrdinarilyClosedIsClosed(prog: Program, booted: bool, base: set<Triple>, t: Triple)
    requires Entailed(prog, booted, base, t)
    ensures OrdinarilyEntailed(prog, booted, base, t)
  {
    forall K: set<Triple> | base <= K && OrdinarilyClosed(prog, booted, K) ensures t in K {
      ClosedIff(prog, booted, K);
    }
  }

  // Then every closed set is closed in the ordinary sense.
  lemma DispensableCloses(prog: Program, booted: bool, K: set<Triple>)
    requires AllDispensable(prog, booted) && Closed(prog, booted, K)
    ensures OrdinarilyClosed(prog, booted, K)
  {
    forall a, t | Missed(prog, booted, a, K) && t in Conclusions(a) ensures t in K {
      assert Missed(prog, booted, a, PremisesOf(a));
      assert Dispensable(prog, booted, a);
      assert PremisesOf(a) <= K;
    }
    ClosedIff(prog, booted, K);
  }

  lemma InstanceEntails(prog: Program, booted: bool, a: Activation, t: Triple)
    requires IsInstance(prog, booted, a, PremisesOf(a)) && t in Conclusions(a)
    ensures OrdinarilyEntailed(prog, booted, PremisesOf(a), t)
  {
    forall K: set<Triple> | PremisesOf(a) <= K && OrdinarilyClosed(prog, booted, K) ensures t in K {
      assert IsInstance(prog, booted, a, K);
    }
  }

  ghost predicate EntailmentsAgree(prog: Program, booted: bool) {
    forall base: set<Triple>, t ::
      OrdinarilyEntailed(prog, booted, base, t) <==> Entailed(prog, booted, base, t)
  }

  // Over all bases: the engine entails all that the rules do if and only if no
  // instance that it misses is needed, each judged over its own premises.
  lemma AgreesIff(prog: Program, booted: bool)
    ensures EntailmentsAgree(prog, booted) <==> AllDispensable(prog, booted)
  {
    if AllDispensable(prog, booted) {
      forall base: set<Triple>, t ensures OrdinarilyEntailed(prog, booted, base, t) <==> Entailed(prog, booted, base, t) {
        if OrdinarilyEntailed(prog, booted, base, t) {
          forall K: set<Triple> | base <= K && Closed(prog, booted, K) ensures t in K {
            DispensableCloses(prog, booted, K);
          }
        } else if Entailed(prog, booted, base, t) {
          OrdinarilyClosedIsClosed(prog, booted, base, t);
        }
      }
    }
    if EntailmentsAgree(prog, booted) {
      forall a, t | Missed(prog, booted, a, PremisesOf(a)) && t in Conclusions(a)
        ensures Entailed(prog, booted, PremisesOf(a), t)
      {
        InstanceEntails(prog, booted, a, t);
      }
    }
  }

  // Then the two closures of any base are the same.
  lemma AgreeingClosures(prog: Program, booted: bool, base: set<Triple>, K: set<Triple>)
    requires EntailmentsAgree(prog, booted) && Least(prog, booted, base, K)
    ensures OrdinarilyLeast(prog, booted, base, K)
  {
    hide EntailmentsAgree, AllDispensable;
    AgreesIff(prog, booted);
    DispensableCloses(prog, booted, K);
    ClosedIff(prog, booted, K);
    LeastIff(prog, booted, base, K);
  }

  // A test on the program: can two conditions of a rule match one triple?

  type Equation = (PatternTerm, PatternTerm)

  type Valuation = string -> Node

  function ValueOf(t: PatternTerm, f: Valuation): Node {
    match t
    case Const(n) => n
    case Var(v) => f(v)
  }

  ghost predicate Solves(f: Valuation, eqs: seq<Equation>) {
    forall i :: 0 <= i < |eqs| ==> ValueOf(eqs[i].0, f) == ValueOf(eqs[i].1, f)
  }

  function Replace(t: PatternTerm, v: string, u: PatternTerm): PatternTerm {
    if t == Var(v) then u else t
  }

  function ReplaceAll(eqs: seq<Equation>, v: string, u: PatternTerm): seq<Equation> {
    seq(|eqs|, i requires 0 <= i < |eqs| => (Replace(eqs[i].0, v, u), Replace(eqs[i].1, v, u)))
  }

  // Unification. Terms are not nested, so a variable is simply replaced.
  predicate Solvable(eqs: seq<Equation>)
    decreases |eqs|
  {
    if eqs == [] then true
    else
      var (l, r) := eqs[0];
      if l == r then Solvable(eqs[1..])
      else if l.Var? then Solvable(ReplaceAll(eqs[1..], l.name, r))
      else if r.Var? then Solvable(ReplaceAll(eqs[1..], r.name, l))
      else false
  }

  lemma ReplacedValues(eqs: seq<Equation>, v: string, u: PatternTerm, f: Valuation)
    requires f(v) == ValueOf(u, f)
    ensures Solves(f, ReplaceAll(eqs, v, u)) <==> Solves(f, eqs)
  {
    var more := ReplaceAll(eqs, v, u);
    forall i | 0 <= i < |eqs|
      ensures ValueOf(more[i].0, f) == ValueOf(eqs[i].0, f) && ValueOf(more[i].1, f) == ValueOf(eqs[i].1, f)
    {
    }
  }

  // After the replacement the variable is free to take the value it needs.
  lemma ReplacedSolution(eqs: seq<Equation>, v: string, u: PatternTerm, f: Valuation) returns (g: Valuation)
    requires u != Var(v) && Solves(f, ReplaceAll(eqs, v, u))
    ensures g(v) == ValueOf(u, g) && Solves(g, eqs)
  {
    g := x => if x == v then ValueOf(u, f) else f(x);
    assert g(v) == ValueOf(u, f);
    assert ValueOf(u, g) == ValueOf(u, f) by {
      if u.Var? {
        assert g(u.name) == f(u.name);
      }
    }
    var more := ReplaceAll(eqs, v, u);
    forall i | 0 <= i < |eqs|
      ensures ValueOf(more[i].0, f) == ValueOf(eqs[i].0, g) && ValueOf(more[i].1, f) == ValueOf(eqs[i].1, g)
    {
    }
  }

  lemma {:induction false} SolvesSolvable(eqs: seq<Equation>, f: Valuation)
    requires Solves(f, eqs)
    ensures Solvable(eqs)
    decreases |eqs|
  {
    if eqs != [] {
      var (l, r) := eqs[0];
      assert Solves(f, eqs[1..]);
      assert ValueOf(l, f) == ValueOf(r, f);
      if l == r {
        SolvesSolvable(eqs[1..], f);
      } else if l.Var? {
        ReplacedValues(eqs[1..], l.name, r, f);
        SolvesSolvable(ReplaceAll(eqs[1..], l.name, r), f);
      } else if r.Var? {
        ReplacedValues(eqs[1..], r.name, l, f);
        SolvesSolvable(ReplaceAll(eqs[1..], r.name, l), f);
      }
    }
  }

  lemma {:induction false} SolvableSolved(eqs: seq<Equation>) returns (f: Valuation)
    requires Solvable(eqs)
    ensures Solves(f, eqs)
    decreases |eqs|
  {
    if eqs == [] {
      f := x => IRI("");
    } else {
      var (l, r) := eqs[0];
      if l == r {
        f := SolvableSolved(eqs[1..]);
      } else if l.Var? {
        f := SolvableSolved(ReplaceAll(eqs[1..], l.name, r));
        f := ReplacedSolution(eqs[1..], l.name, r, f);
      } else {
        f := SolvableSolved(ReplaceAll(eqs[1..], r.name, l));
        f := ReplacedSolution(eqs[1..], r.name, l, f);
      }
      assert eqs == [eqs[0]] + eqs[1..];
    }
  }

  function Same(p: Pattern, q: Pattern): seq<Equation> {
    [(p.s, q.s), (p.p, q.p), (p.o, q.o)]
  }

  // No rule has two conditions that one triple can match, and none has guards
  // only. A caller can run this on the program.
  predicate Safe(prog: RuleSet) {
    forall i :: 0 <= i < |prog.rules| ==> SafeRule(prog.rules[i])
  }

  predicate SafeRule(r: Rule) {
    && (r.body == [] ==> r.guards == [])
    && forall i, j :: 0 <= i < j < |r.body| ==> !Solvable(Same(r.body[i], r.body[j]))
  }

  // Of a safe program no instance is missed, so the closures agree everywhere.
  lemma SafeMissesNothing(prog: Program, booted: bool, a: Activation, K: set<Triple>)
    requires Safe(prog)
    ensures !Missed(prog, booted, a, K)
  {
    hide Solvable, GuardsPass;
    if IsInstance(prog, booted, a, K) {
      assert SafeRule(a.rule);
      forall i, j | 0 <= i < j < |a.premises| ensures a.premises[i] != a.premises[j] {
        SafePremises(a.rule, a.bindings, a.premises, i, j);
      }
    }
  }

  lemma SafePremises(r: Rule, b: Bindings, premises: seq<Triple>, i: nat, j: nat)
    requires SafeRule(r) && Substitutes(r.body, b, premises) && i < j < |premises|
    ensures premises[i] != premises[j]
  {
    hide Solvable, BodyVars, Instantiate, WellFormed;
    var f: Valuation := x => if x in b then b[x] else IRI("");
    BoundValues(r.body[i], b, f);
    BoundValues(r.body[j], b, f);
    if premises[i] == premises[j] {
      SolvesSolvable(Same(r.body[i], r.body[j]), f);
    }
  }

  lemma BoundValues(p: Pattern, b: Bindings, f: Valuation)
    requires PatternVars(p) <= b.Keys && forall v :: v in b ==> f(v) == b[v]
    ensures Instantiate(p, b) == Triple(ValueOf(p.s, f), ValueOf(p.p, f), ValueOf(p.o, f))
  {
    assert TermVars(p.s) <= b.Keys && TermVars(p.p) <= b.Keys && TermVars(p.o) <= b.Keys;
    TermValue(p.s, b, f);
    TermValue(p.p, b, f);
    TermValue(p.o, b, f);
  }

  lemma TermValue(t: PatternTerm, b: Bindings, f: Valuation)
    requires TermVars(t) <= b.Keys && forall v :: v in b ==> f(v) == b[v]
    ensures Resolve(t, b) == ValueOf(t, f)
  {
    if t.Var? {
      assert t.name in TermVars(t);
    }
  }

  lemma SafeAgrees(prog: Program, booted: bool, base: set<Triple>, K: set<Triple>)
    requires Safe(prog) && Least(prog, booted, base, K)
    ensures OrdinarilyLeast(prog, booted, base, K)
  {
    forall a ensures !Missed(prog, booted, a, K) { SafeMissesNothing(prog, booted, a, K); }
    hide Safe, Least, Missed, OrdinarilyLeast;
    LeastIff(prog, booted, base, K);
  }

  // A rule without guards that fails the test has an instance that is missed,
  // over some facts. Whether that matters is another question.
  lemma UnsafeMisses(prog: Program, booted: bool, r: Rule) returns (a: Activation, K: set<Triple>)
    requires r in prog.rules && r.guards == [] && !SafeRule(r)
    ensures a.rule == r && Missed(prog, booted, a, K)
  {
    hide Solvable, Solves, Same, TripleOf, Substitutes, WellFormed;
    var i, j :| 0 <= i < j < |r.body| && Solvable(Same(r.body[i], r.body[j]));
    var f := SolvableSolved(Same(r.body[i], r.body[j]));
    SameTriple(r.body[i], r.body[j], f);
    a := Valued(r, f);
    ValuedSubstitutes(r, f);
    assert a.premises[i] == a.premises[j];
    K := set t | t in a.premises;
  }

  lemma SameTriple(p: Pattern, q: Pattern, f: Valuation)
    requires Solves(f, Same(p, q))
    ensures TripleOf(p, f) == TripleOf(q, f)
  {
    var eqs := Same(p, q);
    assert ValueOf(eqs[0].0, f) == ValueOf(eqs[0].1, f) && ValueOf(eqs[1].0, f) == ValueOf(eqs[1].1, f);
    assert ValueOf(eqs[2].0, f) == ValueOf(eqs[2].1, f);
  }

  ghost function TripleOf(p: Pattern, f: Valuation): Triple {
    Triple(ValueOf(p.s, f), ValueOf(p.p, f), ValueOf(p.o, f))
  }

  ghost function Valued(r: Rule, f: Valuation): Activation {
    Activation(r, seq(|r.body|, k requires 0 <= k < |r.body| => TripleOf(r.body[k], f)), map v | v in BodyVars(r.body) :: f(v))
  }

  lemma ValuedSubstitutes(r: Rule, f: Valuation)
    ensures Substitutes(r.body, Valued(r, f).bindings, Valued(r, f).premises)
  {
    var a := Valued(r, f);
    forall k | 0 <= k < |r.body|
      ensures PatternVars(r.body[k]) <= a.bindings.Keys && Instantiate(r.body[k], a.bindings) == a.premises[k]
    {
      forall v | v in PatternVars(r.body[k]) ensures v in BodyVars(r.body) {}
      BoundValues(r.body[k], a.bindings, f);
    }
  }

  // Runs in which the closures differ

  const SELF := Triple(ANN, KNOWS, ANN)
  const ASKED := Triple(ANN, ASKS, ANN)

  // (?x knows ?y), (?y knows ?z) gives a triple of ?x and ?z.
  const FIRST := Pattern(Var("x"), Const(KNOWS), Var("y"))
  const SECOND := Pattern(Var("y"), Const(KNOWS), Var("z"))

  function Chaining(p: Node): Rule {
    Rule("chain", [FIRST, SECOND], [], [Pattern(Var("x"), Const(p), Var("z"))], 0, false)
  }

  function ChainOf(p: Node): Program {
    var rules := RuleSet([Chaining(p)], (name, args) => true);
    assert WellFormed(Chaining(p)) by { ChainVars(); }
    rules
  }

  // The conclusion is about another property, or the rule is transitivity.
  const CHAIN := Chaining(ASKS)
  const TRANSITIVE := Chaining(KNOWS)

  function Chain(): Program {
    ChainOf(ASKS)
  }

  lemma ChainVars()
    ensures BodyVars([FIRST, SECOND]) == {"x", "y", "z"}
  {
    var body := [FIRST, SECOND];
    assert PatternVars(body[0]) == {"x", "y"} && PatternVars(body[1]) == {"y", "z"};
    forall v | v in {"x", "y", "z"} ensures v in BodyVars(body) {
      assert v in PatternVars(body[0]) || v in PatternVars(body[1]);
    }
  }

  lemma ChainInstance(p: Node, b: Bindings)
    requires "x" in b && "y" in b && "z" in b
    ensures PatternVars(FIRST) <= b.Keys && Instantiate(FIRST, b) == Triple(b["x"], KNOWS, b["y"])
    ensures PatternVars(SECOND) <= b.Keys && Instantiate(SECOND, b) == Triple(b["y"], KNOWS, b["z"])
    ensures var head := Pattern(Var("x"), Const(p), Var("z"));
      PatternVars(head) <= b.Keys && Instantiate(head, b) == Triple(b["x"], p, b["z"])
  {
  }

  // What a missed instance of transitivity looks like.
  lemma MissedChain(a: Activation, K: set<Triple>)
    requires Missed(ChainOf(KNOWS), false, a, K)
    ensures a.rule == TRANSITIVE && Substitutes([FIRST, SECOND], a.bindings, a.premises) && !Distinct(a.premises)
  {
    hide Substitutes, GuardsPass, WellFormed, Distinct;
    assert a.rule == ChainOf(KNOWS).rules[0];
  }

  lemma ChainPremises(b: Bindings, premises: seq<Triple>)
    requires Substitutes([FIRST, SECOND], b, premises)
    ensures "x" in b && "y" in b && "z" in b
    ensures premises == [Triple(b["x"], KNOWS, b["y"]), Triple(b["y"], KNOWS, b["z"])]
  {
    hide Instantiate, PatternVars, BodyVars;
    ChainVars();
    var body := [FIRST, SECOND];
    assert body[0] == FIRST && body[1] == SECOND && b.Keys == {"x", "y", "z"} && |premises| == 2;
    assert Instantiate(body[0], b) == premises[0] && Instantiate(body[1], b) == premises[1];
    hide Substitutes, FIRST, SECOND;
    ChainInstance(KNOWS, b);
    assert premises == [premises[0], premises[1]];
  }

  // An instance of transitivity that uses a fact twice concludes that fact.
  lemma TransitiveRepeats(a: Activation, K: set<Triple>, t: Triple)
    requires Missed(ChainOf(KNOWS), false, a, K) && t in Conclusions(a)
    ensures t in a.premises
  {
    var b := a.bindings;
    MissedChain(a, K);
    ChainPremises(b, a.premises);
    ChainInstance(KNOWS, b);
    hide Missed, Substitutes, Instantiate, PatternVars, ChainOf;
    assert a.premises[0] == a.premises[1] && a.premises[0] in a.premises;
  }

  // A transitivity rule fails the test although the engine entails all that
  // the rule does.
  lemma TransitivityAgrees()
    ensures !Safe(ChainOf(KNOWS)) && EntailmentsAgree(ChainOf(KNOWS), false)
  {
    var prog := ChainOf(KNOWS);
    forall a, t | Missed(prog, false, a, PremisesOf(a)) && t in Conclusions(a)
      ensures Entailed(prog, false, PremisesOf(a), t)
    {
      TransitiveRepeats(a, PremisesOf(a), t);
    }
    AgreesIff(prog, false);
    TransitiveUnifies();
    assert prog.rules[0] == TRANSITIVE;
    assert TRANSITIVE.body[0] == FIRST && TRANSITIVE.body[1] == SECOND;
  }

  lemma TransitiveUnifies()
    ensures Solvable(Same(FIRST, SECOND))
  {
    SolvesSolvable(Same(FIRST, SECOND), x => ANN);
  }

  // Known is only the fact itself, although the rule with that fact in both
  // places concludes another one.
  method FactUsedTwice() returns (e: RETEEngine, ghost a: Activation)
    ensures fresh(e.Repr()) && e.Valid() && e.prog == Chain() && e.known == {SELF}
    ensures Missed(e.prog, e.bootstrapCompleted, a, e.known) && ASKED in Conclusions(a)
    ensures !OrdinarilyClosed(e.prog, e.bootstrapCompleted, e.known)
  {
    hide Manifest, NewlyMatched, Missed, Chain, Conclusions;
    e := new RETEEngine(Chain());
    var _ := e.AddTriples({SELF});
    KnownIsLeast(e);
    NothingFromOne();
    assert e.Stated() + e.lingering == {SELF};
    LeastOne(e);
    a := TwiceUsed();
    assert ASKED !in {SELF};
    ClosedIff(e.prog, e.bootstrapCompleted, e.known);
  }

  lemma LeastOne(e: RETEEngine)
    requires Least(Chain(), e.bootstrapCompleted, {SELF}, e.known) && Closed(Chain(), e.bootstrapCompleted, {SELF})
    ensures e.known == {SELF}
  {
  }

  lemma NothingFromOne()
    ensures Closed(Chain(), false, {SELF})
  {
    forall a ensures !IsActivation(Chain(), false, a, {SELF}) {
      if a.rule == CHAIN && |a.premises| == 2 {
        assert a.premises[0] in a.premises && a.premises[1] in a.premises;
      }
    }
  }

  lemma TwiceUsed() returns (a: Activation)
    ensures Missed(Chain(), false, a, {SELF}) && ASKED in Conclusions(a)
  {
    var b := map["x" := ANN, "y" := ANN, "z" := ANN];
    a := Activation(CHAIN, [SELF, SELF], b);
    ChainVars();
    assert PatternVars(FIRST) == {"x", "y"} && PatternVars(SECOND) == {"y", "z"};
    assert CHAIN.body[0] == FIRST && CHAIN.body[1] == SECOND;
    assert Chain().rules[0] == CHAIN;
    assert CHAIN.head[0] in CHAIN.head && PatternVars(CHAIN.head[0]) == {"x", "z"};
  }

  // A rule with a guard only concludes nothing, although its guard passes.
  const GUARDED := Rule("guarded", [], [Guard("always", [])], [Pattern(Const(ANN), Const(KNOWS), Const(ANN))], 0, false)

  function Guarded(): Program {
    RuleSet([GUARDED], (name, args) => true)
  }

  lemma GuardOnlyIsMissed(booted: bool)
    ensures Least(Guarded(), booted, {}, {}) && !OrdinarilyClosed(Guarded(), booted, {})
  {
    var a := Activation(GUARDED, [], map[]);
    assert Guarded().rules[0] == GUARDED;
    assert BodyVars([]) == {};
    assert GUARDED.head[0] in GUARDED.head;
    assert SELF in Conclusions(a);
    assert IsInstance(Guarded(), booted, a, {});
    assert forall x :: !IsActivation(Guarded(), booted, x, {});
  }
}
