// Rules as body and head patterns with pure guards, and the closure they define.
module Rules {
  import opened Rdf

  datatype PatternTerm = Const(node: Node) | Var(name: string)

  datatype Pattern = Pattern(s: PatternTerm, p: PatternTerm, o: PatternTerm)

  type Bindings = map<string, Node>

  // A read-only predicate call in a rule body.
  datatype Guard = Guard(hook: string, args: seq<PatternTerm>)

  type Hooks = (string, seq<Node>) -> bool

  datatype Rule = Rule(
    id: string,
    body: seq<Pattern>,
    guards: seq<Guard>,
    head: seq<Pattern>,
    salience: int,
    silent: bool)
  {
    // A rule without any body condition runs once, when the engine is warmed.
    predicate Bootstrap() {
      body == [] && guards == []
    }
  }

  datatype RuleSet = RuleSet(rules: seq<Rule>, hooks: Hooks)

  // Variables

  function TermVars(t: PatternTerm): set<string> {
    if t.Var? then {t.name} else {}
  }

  function PatternVars(p: Pattern): set<string> {
    TermVars(p.s) + TermVars(p.p) + TermVars(p.o)
  }

  function BodyVars(body: seq<Pattern>): set<string> {
    set i, v | 0 <= i < |body| && v in PatternVars(body[i]) :: v
  }

  function ArgVars(args: seq<PatternTerm>): set<string> {
    set i, v | 0 <= i < |args| && v in TermVars(args[i]) :: v
  }

  // Neither guards nor heads introduce variables.
  predicate WellFormed(r: Rule) {
    && (forall g :: g in r.guards ==> ArgVars(g.args) <= BodyVars(r.body))
    && (forall h :: h in r.head ==> PatternVars(h) <= BodyVars(r.body))
  }

  type Program = p: RuleSet | forall r :: r in p.rules ==> WellFormed(r)
    witness RuleSet([], (name, args) => true)

  // Instantiation

  function Resolve(t: PatternTerm, b: Bindings): Node
    requires TermVars(t) <= b.Keys
  {
    match t
    case Const(n) => n
    case Var(v) => assert v in TermVars(t); b[v]
  }

  function Instantiate(p: Pattern, b: Bindings): Triple
    requires PatternVars(p) <= b.Keys
  {
    Triple(Resolve(p.s, b), Resolve(p.p, b), Resolve(p.o, b))
  }

  function ResolveArgs(args: seq<PatternTerm>, b: Bindings): seq<Node>
    requires ArgVars(args) <= b.Keys
  {
    seq(|args|, i requires 0 <= i < |args| =>
      assert TermVars(args[i]) <= ArgVars(args); Resolve(args[i], b))
  }

  // What a match means: one substitution, binding exactly the variables of
  // the body, that turns every body pattern into its premise.
  ghost predicate Substitutes(body: seq<Pattern>, b: Bindings, facts: seq<Triple>) {
    && |facts| == |body|
    && b.Keys == BodyVars(body)
    && forall i :: 0 <= i < |body| ==> PatternVars(body[i]) <= b.Keys && Instantiate(body[i], b) == facts[i]
  }

  predicate Distinct<T(==)>(s: seq<T>) {
    forall i, j :: 0 <= i < j < |s| ==> s[i] != s[j]
  }

  // How the alpha node computes it

  function BindTerm(t: PatternTerm, n: Node, b: Bindings): Option<Bindings> {
    match t
    case Const(c) => if c == n then Some(b) else None
    case Var(v) => if v in b && b[v] != n then None else Some(b[v := n])
  }

  function AlphaMatch(p: Pattern, t: Triple): Option<Bindings> {
    match BindTerm(p.s, t.s, map[])
    case None => None
    case Some(b1) =>
      match BindTerm(p.p, t.p, b1)
      case None => None
      case Some(b2) => BindTerm(p.o, t.o, b2)
  }

  lemma SingletonSubstitution(p: Pattern, b: Bindings, t: Triple)
    ensures BodyVars([p]) == PatternVars(p)
    ensures Substitutes([p], b, [t]) <==> b.Keys == PatternVars(p) && Instantiate(p, b) == t
  {
    assert [p][0] == p;
    forall v | v in PatternVars(p) ensures v in BodyVars([p]) {
      assert v in PatternVars([p][0]);
    }
    if Substitutes([p], b, [t]) {
      assert Instantiate([p][0], b) == [t][0];
    }
  }

  // Matching term by term finds the substitution exactly when there is one.
  lemma AlphaMatchIsSubstitution(p: Pattern, t: Triple, b: Bindings)
    ensures AlphaMatch(p, t) == Some(b) <==> Substitutes([p], b, [t])
  {
    SingletonSubstitution(p, b, t);
    var m := AlphaMatch(p, t);
    if m.Some? {
      assert m.value.Keys == PatternVars(p);
      assert Instantiate(p, m.value) == t;
      if Substitutes([p], b, [t]) {
        forall v | v in b.Keys ensures b[v] == m.value[v] {}
        assert b == m.value;
      }
    } else if Substitutes([p], b, [t]) {
      var b1 := BindTerm(p.s, t.s, map[]);
      assert b1.Some? && forall v :: v in b1.value ==> v in b && b1.value[v] == b[v];
      var b2 := BindTerm(p.p, t.p, b1.value);
      assert b2.Some? && forall v :: v in b2.value ==> v in b && b2.value[v] == b[v];
      assert false;
    }
  }

  predicate Compatible(l: Bindings, r: Bindings) {
    forall v :: v in l && v in r ==> l[v] == r[v]
  }

  // Activations and the closure

  // One completed match of a rule, scheduled on the agenda.
  datatype Activation = Activation(rule: Rule, premises: seq<Triple>, bindings: Bindings)

  predicate GuardsPass(hooks: Hooks, guards: seq<Guard>, b: Bindings)
    requires forall g :: g in guards ==> ArgVars(g.args) <= b.Keys
  {
    forall g :: g in guards ==> hooks(g.hook, ResolveArgs(g.args, b))
  }

  // The premises of an activation are pairwise distinct facts: a beta join
  // never uses one fact for two conditions. A rule whose body holds guards
  // only has no root match and never fires; a bootstrap rule fires only in an
  // engine that has been warmed.
  ghost predicate IsActivation(prog: Program, booted: bool, a: Activation, K: set<Triple>) {
    && a.rule in prog.rules
    && Substitutes(a.rule.body, a.bindings, a.premises)
    && Distinct(a.premises)
    && (forall t :: t in a.premises ==> t in K)
    && GuardsPass(prog.hooks, a.rule.guards, a.bindings)
    && (a.rule.body == [] ==> a.rule.Bootstrap() && booted)
  }

  // The head triples the engine asserts; a triple RDF does not permit is
  // skipped. In a well-formed program every head variable is bound.
  function Conclusions(a: Activation): set<Triple> {
    set h | h in a.rule.head && PatternVars(h) <= a.bindings.Keys && Permitted(Instantiate(h, a.bindings)) ::
      Instantiate(h, a.bindings)
  }

  ghost predicate Closed(prog: Program, booted: bool, K: set<Triple>) {
    forall a :: IsActivation(prog, booted, a, K) ==> Conclusions(a) <= K
  }

  // t is in every rule-closed set that contains the base: t is entailed.
  ghost predicate Entailed(prog: Program, booted: bool, base: set<Triple>, t: Triple) {
    forall K: set<Triple> :: base <= K && Closed(prog, booted, K) ==> t in K
  }

  // K is what recomputing from scratch yields: the least closed set that
  // contains the base.
  ghost predicate Least(prog: Program, booted: bool, base: set<Triple>, K: set<Triple>) {
    && base <= K
    && Closed(prog, booted, K)
    && forall L: set<Triple> :: base <= L && Closed(prog, booted, L) ==> K <= L
  }

  lemma LeastIsUnique(prog: Program, booted: bool, base: set<Triple>, K: set<Triple>, L: set<Triple>)
    requires Least(prog, booted, base, K) && Least(prog, booted, base, L)
    ensures K == L
  {
  }

  // A base may be enlarged by triples it already entails.
  lemma LeastAbsorbs(prog: Program, booted: bool, base: set<Triple>, more: set<Triple>, K: set<Triple>)
    requires Least(prog, booted, base + more, K)
    ensures Least(prog, booted, base, K) <==> forall t :: t in more ==> Entailed(prog, booted, base, t)
  {
    if forall t :: t in more ==> Entailed(prog, booted, base, t) {
      forall L: set<Triple> | base <= L && Closed(prog, booted, L)
        ensures K <= L
      {
        assert more <= L;
      }
    }
  }

  lemma ActivationMonotone(prog: Program, booted: bool, a: Activation, K: set<Triple>, L: set<Triple>)
    requires IsActivation(prog, booted, a, K)
    requires forall t :: t in a.premises ==> t in L
    ensures IsActivation(prog, booted, a, L)
  {
  }

  // Finiteness: no rule invents terms

  function NodesOf(t: Triple): set<Node> {
    {t.s, t.p, t.o}
  }

  function TermNodes(t: PatternTerm): set<Node> {
    if t.Const? then {t.node} else {}
  }

  function PatternNodes(p: Pattern): set<Node> {
    TermNodes(p.s) + TermNodes(p.p) + TermNodes(p.o)
  }

  function HeadNodes(prog: RuleSet): set<Node> {
    set i, j, n | 0 <= i < |prog.rules| && 0 <= j < |prog.rules[i].head| && n in PatternNodes(prog.rules[i].head[j]) :: n
  }

  function Vocabulary(prog: RuleSet, facts: set<Triple>): set<Node> {
    HeadNodes(prog) + set t, n | t in facts && n in NodesOf(t) :: n
  }

  // Every triple over the terms of the facts and of the rule heads.
  function Universe(terms: set<Node>): set<Triple> {
    set s, p, o | s in terms && p in terms && o in terms :: Triple(s, p, o)
  }

  lemma BindingOccurs(p: Pattern, b: Bindings, v: string)
    requires PatternVars(p) <= b.Keys && v in PatternVars(p)
    ensures b[v] in NodesOf(Instantiate(p, b))
  {
  }

  lemma BindingsComeFromPremises(body: seq<Pattern>, b: Bindings, facts: seq<Triple>, v: string)
    requires Substitutes(body, b, facts) && v in b
    ensures exists t :: t in facts && b[v] in NodesOf(t)
  {
    var i :| 0 <= i < |body| && v in PatternVars(body[i]);
    BindingOccurs(body[i], b, v);
    assert facts[i] in facts;
  }

  lemma InstantiateStays(h: Pattern, b: Bindings, terms: set<Node>)
    requires PatternVars(h) <= b.Keys && PatternNodes(h) <= terms
    requires forall v :: v in b ==> b[v] in terms
    ensures Instantiate(h, b) in Universe(terms)
  {
    assert TermVars(h.s) <= b.Keys && TermVars(h.p) <= b.Keys && TermVars(h.o) <= b.Keys;
    var t := Instantiate(h, b);
    assert t.s in terms && t.p in terms && t.o in terms;
  }

  lemma HeadNodesOf(prog: Program, r: Rule, h: Pattern)
    requires r in prog.rules && h in r.head
    ensures PatternNodes(h) <= HeadNodes(prog)
  {
    var i :| 0 <= i < |prog.rules| && prog.rules[i] == r;
    var j :| 0 <= j < |r.head| && r.head[j] == h;
    forall n | n in PatternNodes(h) ensures n in HeadNodes(prog) {
      assert n in PatternNodes(prog.rules[i].head[j]);
    }
  }

  lemma ConclusionsStayInUniverse(prog: Program, booted: bool, a: Activation, K: set<Triple>, terms: set<Node>)
    requires IsActivation(prog, booted, a, K)
    requires HeadNodes(prog) <= terms && K <= Universe(terms)
    ensures Conclusions(a) <= Universe(terms)
  {
    forall v | v in a.bindings ensures a.bindings[v] in terms {
      BindingsComeFromPremises(a.rule.body, a.bindings, a.premises, v);
    }
    forall h | h in a.rule.head && PatternVars(h) <= a.bindings.Keys
      ensures Instantiate(h, a.bindings) in Universe(terms)
    {
      HeadNodesOf(prog, a.rule, h);
      InstantiateStays(h, a.bindings, terms);
    }
  }
}
