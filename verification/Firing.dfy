// What a fired rule means, told by positions: which fact stands for which
// condition, which terms a guard is called with, and which triples are asserted.
module Firing {
  import opened Rdf
  import opened Rules
  import opened Support
  import opened Engine

  // A constant stands for itself and a variable for what it is bound to.
  ghost predicate Denotes(t: PatternTerm, n: Node, b: Bindings) {
    match t
    case Const(c) => n == c
    case Var(v) => v in b && b[v] == n
  }

  ghost predicate Fits(p: Pattern, t: Triple, b: Bindings) {
    Denotes(p.s, t.s, b) && Denotes(p.p, t.p, b) && Denotes(p.o, t.o, b)
  }

  ghost predicate AllFit(body: seq<Pattern>, facts: seq<Triple>, b: Bindings) {
    |facts| == |body| && forall i :: 0 <= i < |body| ==> Fits(body[i], facts[i], b)
  }

  ghost predicate Arguments(args: seq<PatternTerm>, xs: seq<Node>, b: Bindings) {
    |xs| == |args| && forall i :: 0 <= i < |args| ==> Denotes(args[i], xs[i], b)
  }

  // The hook is called on what the arguments stand for, in their order.
  ghost predicate Holds(hooks: Hooks, g: Guard, b: Bindings) {
    exists xs :: Arguments(g.args, xs, b) && hooks(g.hook, xs)
  }

  // The rule fires on these facts: they are different, one stands for each
  // condition, and every guard holds. A rule without conditions fires if it has
  // no guards either and the engine has been warmed.
  ghost predicate Fires(prog: Program, booted: bool, r: Rule, b: Bindings, facts: seq<Triple>) {
    && r in prog.rules && AllFit(r.body, facts, b)
    && (forall i, j :: 0 <= i < j < |facts| ==> facts[i] != facts[j])
    && (forall g :: g in r.guards ==> Holds(prog.hooks, g, b))
    && (r.body == [] ==> r.guards == [] && booted)
  }

  // A head triple that RDF permits.
  ghost predicate Asserts(r: Rule, b: Bindings, t: Triple) {
    (exists h :: h in r.head && Fits(h, t, b)) && !t.s.Literal? && t.p.IRI?
  }

  ghost predicate From(facts: seq<Triple>, K: set<Triple>) {
    forall i :: 0 <= i < |facts| ==> facts[i] in K
  }

  // Substitutions by positions

  lemma DenotesIff(t: PatternTerm, n: Node, b: Bindings)
    ensures Denotes(t, n, b) <==> TermVars(t) <= b.Keys && Resolve(t, b) == n
  {
  }

  lemma FitsIff(p: Pattern, t: Triple, b: Bindings)
    ensures Fits(p, t, b) <==> PatternVars(p) <= b.Keys && Instantiate(p, b) == t
  {
    DenotesIff(p.s, t.s, b);
    DenotesIff(p.p, t.p, b);
    DenotesIff(p.o, t.o, b);
    hide Denotes, TermVars, Resolve;
  }

  // Bindings of further variables do not matter.
  lemma FitsRestricted(p: Pattern, t: Triple, b: Bindings, c: Bindings)
    requires PatternVars(p) <= c.Keys && c.Keys <= b.Keys && forall v :: v in c ==> c[v] == b[v]
    ensures Fits(p, t, c) <==> Fits(p, t, b)
  {
  }

  lemma ArgumentsIff(args: seq<PatternTerm>, xs: seq<Node>, b: Bindings)
    requires ArgVars(args) <= b.Keys
    ensures Arguments(args, xs, b) <==> xs == ResolveArgs(args, b)
  {
    var ys := ResolveArgs(args, b);
    forall i | 0 <= i < |args| && i < |xs| ensures Denotes(args[i], xs[i], b) <==> xs[i] == ys[i] {
      assert TermVars(args[i]) <= ArgVars(args);
      DenotesIff(args[i], xs[i], b);
    }
  }

  lemma HoldsIff(hooks: Hooks, g: Guard, b: Bindings)
    requires ArgVars(g.args) <= b.Keys
    ensures Holds(hooks, g, b) <==> hooks(g.hook, ResolveArgs(g.args, b))
  {
    ArgumentsIff(g.args, ResolveArgs(g.args, b), b);
    forall xs ensures Arguments(g.args, xs, b) <==> xs == ResolveArgs(g.args, b) { ArgumentsIff(g.args, xs, b); }
    hide Arguments, ResolveArgs;
  }

  lemma HoldsRestricted(hooks: Hooks, g: Guard, b: Bindings, c: Bindings)
    requires ArgVars(g.args) <= c.Keys && c.Keys <= b.Keys && forall v :: v in c ==> c[v] == b[v]
    ensures Holds(hooks, g, c) <==> Holds(hooks, g, b)
  {
    forall xs ensures Arguments(g.args, xs, c) <==> Arguments(g.args, xs, b) {
      forall i | 0 <= i < |g.args| && i < |xs| ensures Denotes(g.args[i], xs[i], c) <==> Denotes(g.args[i], xs[i], b) {
        assert TermVars(g.args[i]) <= ArgVars(g.args);
      }
    }
    hide Arguments;
  }

  function Restricted(b: Bindings, body: seq<Pattern>): Bindings {
    map v | v in BodyVars(body) && v in b :: b[v]
  }

  lemma BodyBound(body: seq<Pattern>, facts: seq<Triple>, b: Bindings)
    requires AllFit(body, facts, b)
    ensures Restricted(b, body).Keys == BodyVars(body)
    ensures Substitutes(body, Restricted(b, body), facts)
  {
    forall i | 0 <= i < |body| ensures PatternVars(body[i]) <= BodyVars(body) && PatternVars(body[i]) <= b.Keys {
      assert Fits(body[i], facts[i], b);
      FitsIff(body[i], facts[i], b);
    }
    assert forall v :: v in BodyVars(body) ==> v in b;
    var c := Restricted(b, body);
    hide BodyVars, PatternVars;
    forall i | 0 <= i < |body| ensures PatternVars(body[i]) <= c.Keys && Instantiate(body[i], c) == facts[i] {
      assert Fits(body[i], facts[i], b);
      FitsRestricted(body[i], facts[i], b, c);
      FitsIff(body[i], facts[i], c);
    }
  }

  // What fires, asserts

  lemma FiringActivates(prog: Program, booted: bool, r: Rule, b: Bindings, facts: seq<Triple>, t: Triple,
      K: set<Triple>)
    requires Fires(prog, booted, r, b, facts) && Asserts(r, b, t) && From(facts, K)
    ensures var a := Activation(r, facts, Restricted(b, r.body));
      IsActivation(prog, booted, a, K) && t in Conclusions(a)
  {
    BodyBound(r.body, facts, b);
    var c := Restricted(b, r.body);
    var h :| h in r.head && Fits(h, t, b);
    hide Fits, Holds, BodyVars, PatternVars, ArgVars, Substitutes, Instantiate, AllFit, ResolveArgs;
    forall g | g in r.guards ensures prog.hooks(g.hook, ResolveArgs(g.args, c)) {
      HoldsRestricted(prog.hooks, g, b, c);
      HoldsIff(prog.hooks, g, c);
    }
    FitsRestricted(h, t, b, c);
    FitsIff(h, t, c);
  }

  lemma ActivationFires(prog: Program, booted: bool, a: Activation, t: Triple, K: set<Triple>)
    requires IsActivation(prog, booted, a, K) && t in Conclusions(a)
    ensures Fires(prog, booted, a.rule, a.bindings, a.premises) && Asserts(a.rule, a.bindings, t) && From(a.premises, K)
  {
    var h :| h in a.rule.head && PatternVars(h) <= a.bindings.Keys && Instantiate(h, a.bindings) == t;
    FitsIff(h, t, a.bindings);
    forall i | 0 <= i < |a.premises| ensures Fits(a.rule.body[i], a.premises[i], a.bindings) {
      FitsIff(a.rule.body[i], a.premises[i], a.bindings);
    }
    hide Fits, Holds, BodyVars, PatternVars, ArgVars, Instantiate, ResolveArgs;
    forall g | g in a.rule.guards ensures Holds(prog.hooks, g, a.bindings) {
      HoldsIff(prog.hooks, g, a.bindings);
    }
  }

  // A set is closed if and only if it has what every rule that fires on its
  // facts asserts.
  lemma ClosedMeans(prog: Program, booted: bool, K: set<Triple>)
    ensures Closed(prog, booted, K) <==> forall r, b, facts, t ::
      Fires(prog, booted, r, b, facts) && From(facts, K) && Asserts(r, b, t) ==> t in K
  {
    hide Fires, Asserts, From, IsActivation, Conclusions;
    if Closed(prog, booted, K) {
      forall r, b, facts, t | Fires(prog, booted, r, b, facts) && From(facts, K) && Asserts(r, b, t) ensures t in K {
        FiringActivates(prog, booted, r, b, facts, t, K);
      }
    }
    forall a, t | IsActivation(prog, booted, a, K) && t in Conclusions(a)
      ensures Fires(prog, booted, a.rule, a.bindings, a.premises) && From(a.premises, K) &&
          Asserts(a.rule, a.bindings, t)
    {
      ActivationFires(prog, booted, a, t, K);
    }
  }

  // An engine knows what the rules that fire on its facts assert.
  lemma FiredIsKnown(e: RETEEngine, r: Rule, b: Bindings, facts: seq<Triple>, t: Triple)
    requires e.Valid() && Fires(e.prog, e.bootstrapCompleted, r, b, facts) && From(facts, e.known) && Asserts(r, b, t)
    ensures t in e.known
  {
    KnownIsLeast(e);
    hide RETEEngine.Valid;
    ClosedMeans(e.prog, e.bootstrapCompleted, e.known);
  }

  // And it has recorded exactly the rules that fired: which rule, on which
  // facts, to assert which triple.
  lemma RecordedMeans(e: RETEEngine, j: Justification)
    requires e.Valid()
    ensures j in e.tms.Justified() <==> exists r, b ::
      Fires(e.prog, e.bootstrapCompleted, r, b, j.antecedents) && From(j.antecedents, e.known) &&
      Asserts(r, b, j.consequent) && r.id == j.rule
  {
    var J, prog, booted, known := e.tms.Justified(), e.prog, e.bootstrapCompleted, e.known;
    assert Recorded(J, prog, booted, known);
    hide RETEEngine.Valid, Fires, Asserts, From, IsActivation, Conclusions;
    if j in J {
      var a :| IsActivation(prog, booted, a, known) && j in JustificationsOf(a);
      ActivationFires(prog, booted, a, j.consequent, known);
    }
    if r, b :|
        Fires(prog, booted, r, b, j.antecedents) && From(j.antecedents, known) && Asserts(r, b, j.consequent) && r.id == j.rule
    {
      FiringActivates(prog, booted, r, b, j.antecedents, j.consequent, known);
      assert j in JustificationsOf(Activation(r, j.antecedents, Restricted(b, r.body)));
    }
  }

  // The triples that are shown: a rule with conditions that is not silent fires
  // and asserts them, by an instance that is not hidden.
  ghost predicate Shows(prog: Program, known: set<Triple>, hidden: set<Activation>, r: Rule, b: Bindings,
      facts: seq<Triple>) {
    && Fires(prog, true, r, b, facts) && From(facts, known) && r.body != [] && !r.silent
    && Activation(r, facts, Restricted(b, r.body)) !in hidden
  }

  lemma ShownMeans(prog: Program, known: set<Triple>, hidden: set<Activation>, t: Triple)
    ensures Manifest(prog, known, hidden, t) <==>
      exists r, b, facts :: Shows(prog, known, hidden, r, b, facts) && Asserts(r, b, t)
  {
    hide Fires, Asserts, From, IsActivation, Conclusions, Restricted;
    if a :| Displays(prog, known, a) && a !in hidden && t in Conclusions(a) {
      ActivationFires(prog, true, a, t, known);
      OwnRestriction(prog, a, known);
      assert Shows(prog, known, hidden, a.rule, a.bindings, a.premises);
    }
    if r, b, facts :| Shows(prog, known, hidden, r, b, facts) && Asserts(r, b, t) {
      FiringActivates(prog, true, r, b, facts, t, known);
      assert Displays(prog, known, Activation(r, facts, Restricted(b, r.body)));
    }
  }

  lemma OwnRestriction(prog: Program, a: Activation, K: set<Triple>)
    requires IsActivation(prog, true, a, K)
    ensures Activation(a.rule, a.premises, Restricted(a.bindings, a.rule.body)) == a
  {
    hide BodyVars, PatternVars, Instantiate, GuardsPass;
    assert Restricted(a.bindings, a.rule.body) == a.bindings;
  }

  // A rule of the repository

  // Terms of the vocabularies, by their prefixed names.
  const SUBCLASS_OF := IRI("rdfs:subClassOf")
  const TYPE := IRI("rdf:type")

  // All arguments are different terms.
  predicate DifferentTerms(xs: seq<Node>) {
    forall i, j :: 0 <= i < j < |xs| ==> xs[i] != xs[j]
  }

  // (?x subClassOf ?y) and (?a type ?x) give (?a type ?y) if ?x and ?y differ.
  const SUBCLASSES := Pattern(Var("x"), Const(SUBCLASS_OF), Var("y"))
  const MEMBERS := Pattern(Var("a"), Const(TYPE), Var("x"))
  const SUPERMEMBERS := Pattern(Var("a"), Const(TYPE), Var("y"))
  const DIFFERENT := Guard("different_terms", [Var("x"), Var("y")])
  const MEMBERSHIP := Rule("rdfs9", [SUBCLASSES, MEMBERS], [DIFFERENT], [SUPERMEMBERS], 0, false)

  lemma MembershipVars()
    ensures BodyVars(MEMBERSHIP.body) == {"x", "y", "a"} && WellFormed(MEMBERSHIP)
  {
    var body := MEMBERSHIP.body;
    assert PatternVars(body[0]) == {"x", "y"} && PatternVars(body[1]) == {"a", "x"};
    assert "x" in PatternVars(body[0]) && "y" in PatternVars(body[0]) && "a" in PatternVars(body[1]);
    assert BodyVars(body) == {"x", "y", "a"};
    var args := DIFFERENT.args;
    forall v | v in ArgVars(args) ensures v in {"x", "y"} {}
    assert PatternVars(SUPERMEMBERS) == {"a", "y"};
  }

  function Subclassing(): Program {
    var rules := RuleSet([MEMBERSHIP], (name, xs) => name == "different_terms" && DifferentTerms(xs));
    MembershipVars();
    rules
  }

  lemma MembershipFires(booted: bool, x: Node, y: Node, a: Node)
    ensures var b := map["x" := x, "y" := y, "a" := a];
      && (x != y ==> Fires(Subclassing(), booted, MEMBERSHIP, b, [Triple(x, SUBCLASS_OF, y), Triple(a, TYPE, x)]))
      && (!a.Literal? ==> Asserts(MEMBERSHIP, b, Triple(a, TYPE, y)))
  {
    var b := map["x" := x, "y" := y, "a" := a];
    var facts := [Triple(x, SUBCLASS_OF, y), Triple(a, TYPE, x)];
    assert Subclassing().rules[0] == MEMBERSHIP;
    assert Fits(MEMBERSHIP.body[0], facts[0], b) && Fits(MEMBERSHIP.body[1], facts[1], b);
    assert MEMBERSHIP.head[0] == SUPERMEMBERS && Fits(SUPERMEMBERS, Triple(a, TYPE, y), b);
    assert Arguments(DIFFERENT.args, [x, y], b);
  }

  lemma MembershipOnly(booted: bool, r: Rule, b: Bindings, facts: seq<Triple>, t: Triple)
    requires Fires(Subclassing(), booted, r, b, facts) && Asserts(r, b, t)
    ensures |facts| == 2 && facts[0].p == SUBCLASS_OF && facts[1].p == TYPE && facts[0].s == facts[1].o
    ensures facts[0].s != facts[0].o && !facts[1].s.Literal? && t == Triple(facts[1].s, TYPE, facts[0].o)
  {
    assert r == MEMBERSHIP;
    assert Fits(r.body[0], facts[0], b) && Fits(r.body[1], facts[1], b);
    assert Holds(Subclassing().hooks, DIFFERENT, b) by { assert r.guards[0] == DIFFERENT; }
    var xs :| Arguments(DIFFERENT.args, xs, b) && Subclassing().hooks("different_terms", xs);
    assert Denotes(DIFFERENT.args[0], xs[0], b) && Denotes(DIFFERENT.args[1], xs[1], b);
  }

  // What it is for: members of a class are members of its superclasses.
  lemma SubclassingCloses(booted: bool, K: set<Triple>)
    ensures Closed(Subclassing(), booted, K) <==> forall x: Node, y: Node, a: Node ::
      Triple(x, SUBCLASS_OF, y) in K && Triple(a, TYPE, x) in K && x != y && !a.Literal? ==> Triple(a, TYPE, y) in K
  {
    ClosedMeans(Subclassing(), booted, K);
    hide Fires, Asserts, Closed, Subclassing;
    if Closed(Subclassing(), booted, K) {
      forall x: Node, y: Node, a: Node | Triple(x, SUBCLASS_OF, y) in K && Triple(a, TYPE, x) in K && x != y &&
          !a.Literal?
        ensures Triple(a, TYPE, y) in K
      {
        MembershipFires(booted, x, y, a);
        assert From([Triple(x, SUBCLASS_OF, y), Triple(a, TYPE, x)], K);
      }
    }
    forall r: Rule, b: Bindings, facts: seq<Triple>, t: Triple |
        Fires(Subclassing(), booted, r, b, facts) && From(facts, K) && Asserts(r, b, t)
      ensures exists x: Node, y: Node, a: Node ::
          Triple(x, SUBCLASS_OF, y) in K && Triple(a, TYPE, x) in K && x != y && !a.Literal? && t == Triple(a, TYPE, y)
    {
      MembershipOnly(booted, r, b, facts, t);
      assert facts[0] in K && facts[1] in K;
      assert facts[0] == Triple(facts[0].s, SUBCLASS_OF, facts[0].o) &&
          facts[1] == Triple(facts[1].s, TYPE, facts[0].s);
    }
  }

  const CD := Triple(IRI("C"), SUBCLASS_OF, IRI("D"))
  const IC := Triple(IRI("i"), TYPE, IRI("C"))
  const ID := Triple(IRI("i"), TYPE, IRI("D"))

  lemma ClosureOfTwo(K: set<Triple>)
    requires Least(Subclassing(), false, {CD, IC}, K)
    ensures K == {CD, IC, ID}
  {
    var all := {CD, IC, ID};
    SubclassingCloses(false, K);
    SubclassingCloses(false, all);
    hide Closed, Subclassing;
    assert ID in K;
    assert Closed(Subclassing(), false, all);
  }

  lemma ShownOfTwo(hidden: set<Activation>, t: Triple)
    requires hidden == {}
    ensures Manifest(Subclassing(), {CD, IC, ID}, hidden, t) && t !in {CD, IC} <==> t == ID
  {
    var prog, K := Subclassing(), {CD, IC, ID};
    var facts, b := [CD, IC], map["x" := IRI("C"), "y" := IRI("D"), "a" := IRI("i")];
    MembershipFires(true, IRI("C"), IRI("D"), IRI("i"));
    hide Fires, Asserts, IsActivation, Conclusions, Subclassing, Restricted;
    assert From(facts, K);
    assert Fires(prog, true, MEMBERSHIP, b, facts);
    FiringActivates(prog, true, MEMBERSHIP, b, facts, ID, K);
    assert Displays(prog, K, Activation(MEMBERSHIP, facts, Restricted(b, MEMBERSHIP.body)));
    if Manifest(prog, K, hidden, t) {
      var a :| Displays(prog, K, a) && t in Conclusions(a);
      ActivationFires(prog, true, a, t, K);
      MembershipOnly(true, a.rule, a.bindings, a.premises, t);
      assert a.premises[0] in K && a.premises[1] in K;
    }
  }

  // One run: the conclusion is known and handed out, and nothing else is.
  method SubclassRun() returns (e: RETEEngine, shown: set<Triple>)
    ensures fresh(e.Repr()) && e.Valid() && e.prog == Subclassing()
    ensures e.known == {CD, IC, ID} && shown == {ID}
  {
    hide Manifest, NewlyMatched, Subclassing;
    e := new RETEEngine(Subclassing());
    shown := e.AddTriples({CD, IC});
    KnownIsLeast(e);
    assert e.Stated() + e.lingering == {CD, IC};
    ClosureOfTwo(e.known);
    forall t ensures t in shown <==> t == ID {
      ShownOfTwo(e.hidden, t);
    }
  }
}
