// Flat graphs: declarations, axioms that take one triple each, and triples
// that only an assertion could take. What the passes before the assertions make
// of them.
module Acceptance {
  import opened Rdf
  import opened RdfLists
  import opened Ordering
  import opened Kinds
  import opened Elements
  import opened Passes
  import opened Lifting
  import opened Conservation

  // The properties of the axioms that take one triple.
  predicate AxiomProperty(p: Node) {
    || p == Owl(InverseOf) || p == Owl(DisjointWith) || p == Rdfs(Word.SubClassOf) || p == Rdfs(SubPropertyOf)
    || p == Rdfs(Domain) || p == Rdfs(Range) || p == Owl(PropertyDisjointWith) || p == Owl(EquivalentClass)
    || p == Owl(EquivalentProperty) || p == Owl(DifferentFrom) || p == Owl(SameAs)
  }

  ghost predicate IsEntityType(rdfType: Node) {
    exists c :: rdfType == EntityType(c)
  }

  ghost predicate Declares(t: Triple) {
    t.p == TYPE && IsEntityType(t.o)
  }

  // A triple that no pass before the assertions looks at: of a property outside
  // the vocabulary, or of a type that makes no declaration and no description.
  ghost predicate Loose(t: Triple) {
    if t.p == TYPE then !Declares(t) && !Describes(t.o)
    else !AxiomProperty(t.p) && forall word :: t.p != Owl(word)
  }

  // The types that only descriptions have.
  predicate Describes(rdfType: Node) {
    || rdfType == RESTRICTION || rdfType == Owl(AllDisjointClasses) || rdfType == Owl(AllDisjointProperties)
    || rdfType == ALL_DIFFERENT || rdfType == NEGATIVE_ASSERTION
  }

  ghost predicate Flat(graph: set<Triple>) {
    WellFormed(graph) && forall t :: t in graph ==> Declares(t) || AxiomProperty(t.p) || Loose(t)
  }

  // What the mapping asks of an axiom: a resource on the right, and names
  // wherever the subject is typed as a data property or a datatype.
  predicate Acceptable(graph: set<Triple>, t: Triple) {
    && IsResource(t.o)
    && (Has(graph, t.s, TYPE, DATATYPE_PROPERTY) ==>
          && (t.p in {Rdfs(SubPropertyOf), Owl(PropertyDisjointWith), Owl(EquivalentProperty)} ==> t.s.IRI? && t.o.IRI?)
          && (t.p in {Rdfs(Domain), Rdfs(Range)} ==> t.s.IRI?))
    && (t.p == Owl(EquivalentClass) && Has(graph, t.s, TYPE, DATATYPE) ==> t.s.IRI? && !Has(graph, t.s, TYPE, CLASS))
  }

  // A property that a flat graph does not use.
  predicate Foreign(p: Node) {
    !AxiomProperty(p) && p != TYPE
  }

  predicate AxiomWord(word: Word) {
    match word
    case InverseOf | DisjointWith | PropertyDisjointWith | EquivalentClass | EquivalentProperty => true
    case DifferentFrom | SameAs => true
    case _ => false
  }

  lemma OwlForeign()
    ensures forall word :: Foreign(Owl(word)) <==> !AxiomWord(word)
  {
    hide Owl, Rdfs, TYPE, MeaningOf;
    Meanings();
  }

  function Rank(p: Node): int {
    if p == Owl(InverseOf) then -1
    else if p == Owl(DisjointWith) then 0
    else if p == Rdfs(Word.SubClassOf) then 1
    else if p == Rdfs(SubPropertyOf) then 2
    else if p == Rdfs(Domain) then 4
    else if p == Rdfs(Range) then 5
    else if p == Owl(PropertyDisjointWith) then 6
    else if p == Owl(EquivalentClass) then 7
    else if p == Owl(EquivalentProperty) then 8
    else if p == Owl(DifferentFrom) then 10
    else if p == Owl(SameAs) then 11
    else 12
  }

  lemma EarlyRanks()
    ensures Rank(Owl(InverseOf)) == -1 && Rank(Owl(DisjointWith)) == 0 && Rank(Rdfs(Word.SubClassOf)) == 1
    ensures Rank(Rdfs(SubPropertyOf)) == 2 && Rank(Rdfs(Domain)) == 4 && Rank(Rdfs(Range)) == 5
  {
    hide Owl, Rdfs, TYPE, MeaningOf;
    Meanings();
  }

  lemma LateRanks()
    ensures Rank(Owl(PropertyDisjointWith)) == 6 && Rank(Owl(EquivalentClass)) == 7
    ensures Rank(Owl(EquivalentProperty)) == 8 && Rank(Owl(DifferentFrom)) == 10 && Rank(Owl(SameAs)) == 11
    ensures Rank(TYPE) == 12
  {
    hide Owl, Rdfs, TYPE, MeaningOf;
    Meanings();
  }

  lemma Ranks()
    ensures Rank(TYPE) == 12
    ensures Rank(Owl(InverseOf)) == -1 && Rank(Owl(DisjointWith)) == 0 && Rank(Rdfs(Word.SubClassOf)) == 1
    ensures Rank(Rdfs(SubPropertyOf)) == 2 && Rank(Rdfs(Domain)) == 4 && Rank(Rdfs(Range)) == 5
    ensures Rank(Owl(PropertyDisjointWith)) == 6 && Rank(Owl(EquivalentClass)) == 7
    ensures Rank(Owl(EquivalentProperty)) == 8 && Rank(Owl(DifferentFrom)) == 10 && Rank(Owl(SameAs)) == 11
    ensures forall p :: AxiomProperty(p) ==> -1 <= Rank(p) < 12 && Rank(p) != 3 && Rank(p) != 9
  {
    EarlyRanks();
    LateRanks();
    hide Owl, Rdfs, TYPE, Rank;
  }

  // No declaration is the type triple of an n-ary axiom.
  lemma EntityIsNoGroup(c: EntityClass, word: Word)
    requires word in {AllDisjointClasses, AllDisjointProperties, AllDifferent}
    ensures EntityType(c) != Owl(word)
  {
    hide Owl, Rdfs, TYPE, MeaningOf;
    Meanings();
  }

  // Passes that take single triples

  predicate Takes(rule: StatementRule, t: Triple) {
    match rule
    case Declares(_, _) => true
    case States(_, subjects, _) => PassesTest(t.s, subjects)
    case _ => false
  }

  predicate Allowed(graph: set<Triple>, rule: StatementRule, t: Triple) {
    match rule
    case States(choice, _, _) => IsResource(t.o) && ChosenKind(graph, t, choice).Ok?
    case _ => true
  }

  function Taken(rule: StatementRule, triples: seq<Triple>): set<Triple> {
    set t | t in triples && Takes(rule, t)
  }

  // Every claim is on the one triple that its element prints.
  ghost predicate Singles(claims: seq<Proposal>) {
    forall i :: 0 <= i < |claims| ==> SingleClaim(claims[i])
  }

  ghost predicate SingleClaim(claim: Proposal) {
    (claim.element.Declaration? || claim.element.BinaryAxiom?) && claim.triples == claim.element.AsTriples()
  }

  lemma OneTaken(graph: set<Triple>, known: set<Node>, pass: Pass, claims: seq<Proposal>, t: Triple)
    requires pass.ByStatement? && (pass.claim.Declares? || pass.claim.States?) && (pass.claim.Declares? ==> t.p == TYPE)
    requires pass.claim.States? && Takes(pass.claim, t) ==> t !in Claimed(claims)
    ensures var r := ApplyItem(graph, known, pass, claims, Stated(t));
      && (r.Ok? <==> (Takes(pass.claim, t) ==> Allowed(graph, pass.claim, t)))
      && (r.Ok? ==>
          Claimed(r.value) == Claimed(claims) + Taken(pass.claim, [t]) && (Singles(claims) ==> Singles(r.value)))
      && (r.Err? ==> r.error == Malformed)
  {
    hide Claimed, TYPE, DATATYPE, CLASS, DATATYPE_PROPERTY, Has;
    var step := StatementStep(graph, Claimed(claims), known, t, pass.claim);
    assert Taken(pass.claim, [t]) == if Takes(pass.claim, t) then {t} else {};
    if step.Ok? && step.value.Some? {
      ClaimedPlus(claims, step.value.value);
    }
  }

  lemma {:induction false} AllTaken(graph: set<Triple>, known: set<Node>, pass: Pass, claims: seq<Proposal>,
      triples: seq<Triple>)
    requires pass.ByStatement? && (pass.claim.Declares? || pass.claim.States?)
    requires forall i, j :: 0 <= i < j < |triples| ==> triples[i] != triples[j]
    requires pass.claim.Declares? ==> forall t :: t in triples ==> t.p == TYPE
    requires pass.claim.States? ==> Taken(pass.claim, triples) !! Claimed(claims)
    ensures var r := ApplyItems(graph, known, pass, claims, AllStated(triples));
      && (r.Ok? <==> forall t :: t in Taken(pass.claim, triples) ==> Allowed(graph, pass.claim, t))
      && (r.Ok? ==>
          Claimed(r.value) == Claimed(claims) + Taken(pass.claim, triples) && (Singles(claims) ==> Singles(r.value)))
      && (r.Err? ==> r.error == Malformed)
    decreases |triples|
  {
    hide Claimed, ApplyItem, Takes, Allowed, Singles;
    if triples != [] {
      var t, rest := triples[0], triples[1..];
      assert AllStated(triples)[0] == Stated(t) && AllStated(triples)[1..] == AllStated(rest);
      assert triples == [t] + rest;
      assert Taken(pass.claim, triples) == Taken(pass.claim, [t]) + Taken(pass.claim, rest);
      assert t !in rest;
      OneTaken(graph, known, pass, claims, t);
      var r := ApplyItem(graph, known, pass, claims, Stated(t));
      if r.Ok? {
        AllTaken(graph, known, pass, r.value, rest);
      }
    }
  }

  function Picked(graph: set<Triple>, pass: Pass): set<Triple>
    requires pass.ByStatement?
  {
    set t | t in Candidates(graph, {}, pass.source) && Takes(pass.claim, t)
  }

  lemma PassTaken(graph: set<Triple>, claims: seq<Proposal>, pass: Pass)
    requires pass.ByStatement? && (pass.claim.Declares? || pass.claim.States?) && pass.source != Unclaimed
    requires pass.claim.Declares? ==> pass.source.WithType?
    requires pass.claim.States? ==> Picked(graph, pass) !! Claimed(claims)
    ensures var r := ApplyPass(graph, claims, pass);
      && (r.Ok? <==> forall t :: t in Picked(graph, pass) ==> Allowed(graph, pass.claim, t))
      && (r.Ok? ==> Claimed(r.value) == Claimed(claims) + Picked(graph, pass) && (Singles(claims) ==> Singles(r.value)))
      && (r.Err? ==> r.error == Malformed)
  {
    TriplesOrdered();
    var found := Candidates(graph, Claimed(claims), pass.source);
    assert found == Candidates(graph, {}, pass.source);
    var triples := Sorted(found, TripleLe);
    assert Taken(pass.claim, triples) == Picked(graph, pass);
    AllTaken(graph, Known(pass, ElementsOf(claims)), pass, claims, triples);
  }

  // Passes with nothing to do

  ghost predicate Idle(graph: set<Triple>, pass: Pass) {
    match pass
    case BySubject(p, _) => SubjectsOf(graph, p) == {}
    case ByStatement(source, _) => source.WithType? && Candidates(graph, {}, source) == {}
  }

  lemma IdlePass(graph: set<Triple>, claims: seq<Proposal>, pass: Pass)
    requires Idle(graph, pass)
    ensures ApplyPass(graph, claims, pass) == Ok(claims)
  {
    NodesOrdered();
    TriplesOrdered();
    match pass {
      case BySubject(p, _) => NoneSorted(Sorted(SubjectsOf(graph, p), NodeLe), NodeLe);
      case ByStatement(source, _) => NoneSorted(Sorted(Candidates(graph, Claimed(claims), source), TripleLe), TripleLe);
    }
  }

  lemma {:induction false} IdlePasses(graph: set<Triple>, claims: seq<Proposal>, passes: seq<Pass>)
    requires forall pass :: pass in passes ==> Idle(graph, pass)
    ensures ApplyPasses(graph, claims, passes) == Ok(claims)
    decreases |passes|
  {
    hide ApplyPass, Idle;
    if passes != [] {
      IdlePass(graph, claims, passes[0]);
      IdlePasses(graph, claims, passes[1..]);
    }
  }

  lemma ForeignIdle(graph: set<Triple>, pass: Pass, word: Word)
    requires Flat(graph) && pass.BySubject? && pass.property == Owl(word) && Foreign(Owl(word))
    ensures Idle(graph, pass)
  {
    hide Owl, TYPE, AxiomProperty, Describes;
  }

  lemma NoGroups(graph: set<Triple>, word: Word)
    requires Flat(graph) && word in {AllDisjointClasses, AllDisjointProperties, AllDifferent}
    ensures Candidates(graph, {}, WithType(Owl(word))) == {}
  {
    Ranks();
    forall c ensures EntityType(c) != Owl(word) { EntityIsNoGroup(c, word); }
    hide Owl, TYPE, EntityType, Rank;
    forall t | t in graph && t.p == TYPE ensures t.o != Owl(word) {
      assert AxiomProperty(t.p) ==> Rank(t.p) < 12;
    }
  }

  // The passes over a flat graph, phase by phase

  lemma ExpressionsForeign()
    ensures forall pass :: pass in ExpressionPasses() ==>
      pass.BySubject? && exists word :: pass.property == Owl(word) && Foreign(Owl(word))
  {
    OwlForeign();
    hide Owl, Foreign;
  }

  lemma RestrictionsForeign()
    ensures forall pass :: pass in RestrictionPasses() ==>
      pass.BySubject? && exists word :: pass.property == Owl(word) && Foreign(Owl(word))
  {
    OwlForeign();
    hide Owl, Foreign;
  }

  lemma ExpressionsIdle(graph: set<Triple>)
    requires Flat(graph)
    ensures forall pass :: pass in ExpressionPasses() + RestrictionPasses() ==> Idle(graph, pass)
  {
    ExpressionsForeign();
    RestrictionsForeign();
    hide ExpressionPasses, RestrictionPasses, Foreign, Idle;
    forall pass | pass in ExpressionPasses() + RestrictionPasses() ensures Idle(graph, pass) {
      var word :| pass.property == Owl(word) && Foreign(Owl(word));
      ForeignIdle(graph, pass, word);
    }
  }

  // The axiom triples whose pass comes before place i of its phase.
  function Done(graph: set<Triple>, i: int): set<Triple> {
    set t | t in graph && Rank(t.p) < i
  }

  // The pass at place i of its phase works on the axioms of that rank, all of
  // them, and allows those that are acceptable.
  ghost predicate Ranked(graph: set<Triple>, pass: Pass, i: int) {
    if Idle(graph, pass) then forall t :: t in graph ==> Rank(t.p) != i
    else
      && pass.ByStatement? && pass.claim.States? && pass.source.WithProperty?
      && Picked(graph, pass) == (set t | t in graph && Rank(t.p) == i)
      && forall t :: t in Picked(graph, pass) ==> (Allowed(graph, pass.claim, t) <==> Acceptable(graph, t))
  }

  lemma PropertyRanked(graph: set<Triple>, p: Node, choice: Choice, rechecks: bool, i: int)
    requires Rank(p) == i < 12
    requires forall t :: t in graph && t.p == p ==>
        (Allowed(graph, States(choice, AnySubject, rechecks), t) <==> Acceptable(graph, t))
    ensures Ranked(graph, ByStatement(WithProperty(p), States(choice, AnySubject, rechecks)), i)
  {
    hide Allowed, Acceptable;
    forall q ensures Rank(q) == i <==> q == p { SameRank(p, q); }
    hide Rank;
  }

  lemma SameRank(p: Node, q: Node)
    requires Rank(p) < 12
    ensures Rank(q) == Rank(p) <==> q == p
  {
    hide Owl, Rdfs;
  }

  lemma AllowedIffAcceptable(graph: set<Triple>, t: Triple, choice: Choice, rechecks: bool)
    requires match choice {
      case Always(_) => Rank(t.p) in {-1, 0, 1, 10, 11}
      case ByDataProperty(_, _, iriOperand) => if iriOperand then Rank(t.p) in {2, 6, 8} else Rank(t.p) in {4, 5}
      case ByDatatype(_, _) => Rank(t.p) == 7
    }
    ensures Allowed(graph, States(choice, AnySubject, rechecks), t) <==> Acceptable(graph, t)
  {
    Ranks();
    hide Owl, Rdfs, AxiomProperty, TYPE, DATATYPE, CLASS, DATATYPE_PROPERTY, Has;
  }

  lemma StatingRanked(graph: set<Triple>, p: Node, choice: Choice, rechecks: bool)
    requires Rank(p) < 12
    requires match choice {
      case Always(_) => Rank(p) in {-1, 0, 1, 10, 11}
      case ByDataProperty(_, _, iriOperand) => if iriOperand then Rank(p) in {2, 6, 8} else Rank(p) in {4, 5}
      case ByDatatype(_, _) => Rank(p) == 7
    }
    ensures Ranked(graph, ByStatement(WithProperty(p), States(choice, AnySubject, rechecks)), Rank(p))
  {
    hide Rank, Allowed, Acceptable, Ranked;
    forall t | t in graph && t.p == p
      ensures Allowed(graph, States(choice, AnySubject, rechecks), t) <==> Acceptable(graph, t)
    {
      AllowedIffAcceptable(graph, t, choice, rechecks);
    }
    PropertyRanked(graph, p, choice, rechecks, Rank(p));
  }

  lemma OwningRanked(graph: set<Triple>, word: Word, rule: SubjectRule, i: int)
    requires Flat(graph) && (word == PropertyChainAxiom || word == Word.HasKey) && (i == 3 || i == 9)
    ensures Ranked(graph, BySubject(Owl(word), rule), i)
  {
    hide Owl, Rank, Foreign, Idle, Flat;
    OwlForeign();
    ForeignIdle(graph, BySubject(Owl(word), rule), word);
    NoneOfRank(graph, i);
  }

  // Two of the ranks belong to properties that a flat graph does not use.
  lemma NoneOfRank(graph: set<Triple>, i: int)
    requires i == 3 || i == 9
    ensures forall t :: t in graph ==> Rank(t.p) != i
  {
    hide Owl, Rdfs, Rank, TYPE, AxiomProperty;
    Ranks();
    forall p ensures Rank(p) < 12 <==> AxiomProperty(p) { RankedAxiom(p); }
  }

  lemma AxiomRanked(graph: set<Triple>, i: nat)
    requires Flat(graph) && i < 12
    ensures |AxiomPasses()| == 12 && Ranked(graph, AxiomPasses()[i], i)
  {
    Ranks();
    hide Owl, Rdfs, Rank, Flat, Ranked;
    StatingRanked(graph, Owl(DisjointWith), Always(Binary(DisjointClasses)), false);
    StatingRanked(graph, Rdfs(Word.SubClassOf), Always(Binary(BinaryClass.SubClassOf)), false);
    StatingRanked(graph, Rdfs(SubPropertyOf), ByDataProperty(Binary(SubObjectPropertyOf),
      Binary(SubDataPropertyOf), true), false);
    OwningRanked(graph, PropertyChainAxiom, OwnsList(None, Listing(SubObjectPropertyOfChain), false, 2), 3);
    StatingRanked(graph, Rdfs(Domain), ByDataProperty(Binary(ObjectPropertyDomain), Binary(DataPropertyDomain),
      false), false);
    StatingRanked(graph, Rdfs(Range), ByDataProperty(Binary(ObjectPropertyRange), Binary(DataPropertyRange),
      false), false);
    StatingRanked(graph, Owl(PropertyDisjointWith), ByDataProperty(Binary(DisjointObjectProperties),
      Binary(DisjointDataProperties), true), false);
    StatingRanked(graph, Owl(EquivalentClass), ByDatatype(Binary(EquivalentClasses), Binary(DatatypeDefinition)), true);
    StatingRanked(graph, Owl(EquivalentProperty), ByDataProperty(Binary(EquivalentObjectProperties),
      Binary(EquivalentDataProperties), true), true);
    OwningRanked(graph, Word.HasKey, OwnsList(None, Listing(ListClass.HasKey), false, 1), 9);
    StatingRanked(graph, Owl(DifferentFrom), Always(Binary(DifferentIndividuals)), false);
    StatingRanked(graph, Owl(SameAs), Always(Binary(SameIndividual)), false);
  }

  predicate AcceptableAt(graph: set<Triple>, i: int) {
    forall t :: t in graph && Rank(t.p) == i ==> Acceptable(graph, t)
  }

  predicate AcceptableFrom(graph: set<Triple>, i: int) {
    forall t :: t in graph && i <= Rank(t.p) < 12 ==> Acceptable(graph, t)
  }

  lemma AcceptableSplit(graph: set<Triple>, i: nat)
    requires i < 12
    ensures AcceptableFrom(graph, i) <==> AcceptableAt(graph, i) && AcceptableFrom(graph, i + 1)
  {
    hide Acceptable, Rank;
  }

  lemma AxiomStep(graph: set<Triple>, claims: seq<Proposal>, pass: Pass, i: nat)
    requires Ranked(graph, pass, i) && Claimed(claims) == Done(graph, i) && Singles(claims)
    ensures var r := ApplyPass(graph, claims, pass);
      && (r.Ok? <==> AcceptableAt(graph, i))
      && (r.Ok? ==> Claimed(r.value) == Done(graph, i + 1) && Singles(r.value))
      && (r.Err? ==> r.error == Malformed)
  {
    hide Rank, Acceptable, Allowed, Claimed, Singles, ApplyPass;
    if Idle(graph, pass) {
      IdlePass(graph, claims, pass);
      assert Done(graph, i + 1) == Done(graph, i);
    } else {
      hide Idle;
      PassTaken(graph, claims, pass);
      assert Done(graph, i + 1) == Done(graph, i) + Picked(graph, pass);
    }
  }

  lemma PassesFrom(graph: set<Triple>, claims: seq<Proposal>, passes: seq<Pass>, i: nat)
    requires i < |passes|
    ensures ApplyPasses(graph, claims, passes[i..]) == match ApplyPass(graph, claims, passes[i]) {
      case Err(e) => Err(e)
      case Ok(more) => ApplyPasses(graph, more, passes[i + 1..])
    }
  {
    hide ApplyPass;
    assert passes[i..][0] == passes[i] && passes[i..][1..] == passes[i + 1..];
  }

  lemma NothingFrom(graph: set<Triple>)
    ensures AcceptableFrom(graph, 12)
  {
    hide Rank;
  }

  lemma PassesDone(graph: set<Triple>, claims: seq<Proposal>, passes: seq<Pass>)
    ensures ApplyPasses(graph, claims, passes[|passes|..]) == Ok(claims)
  {
  }

  lemma AxiomCount()
    ensures |AxiomPasses()| == 12
  {
    hide Owl, Rdfs;
  }

  lemma {:induction false} AxiomsFrom(graph: set<Triple>, claims: seq<Proposal>, i: nat)
    requires Flat(graph) && i <= 12 && Claimed(claims) == Done(graph, i) && Singles(claims)
    ensures |AxiomPasses()| == 12
    ensures var r := ApplyPasses(graph, claims, AxiomPasses()[i..]);
      && (r.Ok? <==> AcceptableFrom(graph, i))
      && (r.Ok? ==> Claimed(r.value) == Done(graph, 12) && Singles(r.value))
      && (r.Err? ==> r.error == Malformed)
    decreases 12 - i
  {
    AxiomCount();
    hide AcceptableAt, AcceptableFrom, Claimed, Singles, Flat, Done, Ranked, ApplyPass, ApplyPasses, AxiomPasses;
    hide Idle, Picked;
    if i == 12 {
      PassesDone(graph, claims, AxiomPasses());
      NothingFrom(graph);
    } else {
      var pass := AxiomPasses()[i];
      AxiomRanked(graph, i);
      PassesFrom(graph, claims, AxiomPasses(), i);
      AxiomStep(graph, claims, pass, i);
      AcceptableSplit(graph, i);
      var r := ApplyPass(graph, claims, pass);
      if r.Ok? {
        AxiomsFrom(graph, r.value, i + 1);
      }
    }
  }

  // Declarations

  function TypedBy(graph: set<Triple>, passes: seq<Pass>): set<Triple> {
    set t | t in graph && exists pass :: pass in passes && pass.ByStatement? && t in Candidates(graph, {}, pass.source)
  }

  lemma {:induction false} DeclarationsFrom(graph: set<Triple>, claims: seq<Proposal>, passes: seq<Pass>)
    requires Singles(claims)
    requires forall pass :: pass in passes ==> pass.ByStatement? && pass.claim.Declares? && pass.source.WithType?
    ensures var r := ApplyPasses(graph, claims, passes);
      r.Ok? && Claimed(r.value) == Claimed(claims) + TypedBy(graph, passes) && Singles(r.value)
    decreases |passes|
  {
    hide Claimed, Singles, ApplyPass, Candidates;
    if passes != [] {
      PassTaken(graph, claims, passes[0]);
      DeclarationsFrom(graph, ApplyPass(graph, claims, passes[0]).value, passes[1..]);
      assert passes == [passes[0]] + passes[1..];
      assert TypedBy(graph, passes) == Picked(graph, passes[0]) + TypedBy(graph, passes[1..]) by {
        TypedByFirst(graph, passes);
      }
    }
  }

  lemma TypedByFirst(graph: set<Triple>, passes: seq<Pass>)
    requires passes != [] && passes[0].ByStatement? && passes[0].claim.Declares? && passes[0].source.WithType?
    ensures TypedBy(graph, passes) == Picked(graph, passes[0]) + TypedBy(graph, passes[1..])
  {
    assert passes == [passes[0]] + passes[1..];
    forall t | t in graph
      ensures t in TypedBy(graph, passes) <==> t in Picked(graph, passes[0]) || t in TypedBy(graph, passes[1..])
    {
      if t in TypedBy(graph, passes) {
        var pass :| pass in passes && pass.ByStatement? && t in Candidates(graph, {}, pass.source);
        assert pass == passes[0] || pass in passes[1..];
      }
      assert passes[0] in passes;
    }
  }

  // There is a pass for every kind of declaration.
  lemma EntityPass(c: EntityClass) returns (pass: Pass)
    ensures pass in CharacteristicPasses() + DeclarationPasses() && pass.ByStatement? &&
        pass.source == WithType(EntityType(c))
  {
    hide Owl, DATATYPE, CLASS, DATATYPE_PROPERTY, FUNCTIONAL_PROPERTY;
    var a, b := CharacteristicPasses(), DeclarationPasses();
    match c {
      case DeclarationDatatype => pass := b[0];
      case DeclarationClass => pass := b[1];
      case DeclarationObjectProperty => pass := b[2];
      case DeclarationDataProperty => pass := b[3];
      case DeclarationAnnotationProperty => pass := b[4];
      case NamedIndividual => pass := b[5];
      case InverseFunctionalObjectProperty => pass := a[0];
      case ReflexiveObjectProperty => pass := a[1];
      case IrreflexiveObjectProperty => pass := a[2];
      case SymmetricObjectProperty => pass := a[3];
      case AsymmetricObjectProperty => pass := a[4];
      case TransitiveObjectProperty => pass := a[5];
      case FunctionalObjectProperty => pass := a[6];
      case FunctionalDataProperty => pass := a[6];
    }
    assert pass in a || pass in b;
  }

  lemma DeclaringPasses()
    ensures forall pass :: pass in CharacteristicPasses() + DeclarationPasses() ==>
      pass.ByStatement? && pass.claim.Declares? && pass.source.WithType? && IsEntityType(pass.source.rdfType)
  {
    hide Owl, DATATYPE, CLASS, DATATYPE_PROPERTY, FUNCTIONAL_PROPERTY, IsEntityType;
    EntityTypesAre();
    forall pass | pass in CharacteristicPasses() + DeclarationPasses()
      ensures pass.ByStatement? && pass.claim.Declares? && pass.source.WithType? && IsEntityType(pass.source.rdfType)
    {
      assert pass in CharacteristicPasses() || pass in DeclarationPasses();
    }
  }

  lemma EntityTypesAre()
    ensures IsEntityType(DATATYPE) && IsEntityType(CLASS) && IsEntityType(Owl(ObjectProperty))
    ensures IsEntityType(DATATYPE_PROPERTY) && IsEntityType(Owl(AnnotationProperty))
    ensures IsEntityType(Owl(Word.NamedIndividual)) && IsEntityType(Owl(InverseFunctionalProperty))
    ensures IsEntityType(Owl(ReflexiveProperty)) && IsEntityType(Owl(IrreflexiveProperty))
    ensures IsEntityType(Owl(SymmetricProperty)) && IsEntityType(Owl(AsymmetricProperty))
    ensures IsEntityType(Owl(TransitiveProperty)) && IsEntityType(FUNCTIONAL_PROPERTY)
  {
    hide Owl, DATATYPE, CLASS, DATATYPE_PROPERTY, FUNCTIONAL_PROPERTY;
    assert DATATYPE == EntityType(DeclarationDatatype) && CLASS == EntityType(DeclarationClass);
    assert Owl(ObjectProperty) == EntityType(DeclarationObjectProperty);
    assert DATATYPE_PROPERTY == EntityType(DeclarationDataProperty);
    assert Owl(AnnotationProperty) == EntityType(DeclarationAnnotationProperty);
    assert Owl(Word.NamedIndividual) == EntityType(EntityClass.NamedIndividual);
    assert Owl(InverseFunctionalProperty) == EntityType(InverseFunctionalObjectProperty);
    assert Owl(ReflexiveProperty) == EntityType(ReflexiveObjectProperty);
    assert Owl(IrreflexiveProperty) == EntityType(IrreflexiveObjectProperty);
    assert Owl(SymmetricProperty) == EntityType(SymmetricObjectProperty);
    assert Owl(AsymmetricProperty) == EntityType(AsymmetricObjectProperty);
    assert Owl(TransitiveProperty) == EntityType(TransitiveObjectProperty);
    assert FUNCTIONAL_PROPERTY == EntityType(FunctionalObjectProperty);
  }

  // What the passes before the assertions are there for.
  ghost function Firm(graph: set<Triple>): set<Triple> {
    set t | t in graph && !Loose(t)
  }

  // That is what has been claimed once the declarations are.
  lemma FirmClaimed(graph: set<Triple>)
    requires Flat(graph)
    ensures Done(graph, 12) + TypedBy(graph, CharacteristicPasses() + DeclarationPasses()) == Firm(graph)
  {
    var passes := CharacteristicPasses() + DeclarationPasses();
    hide CharacteristicPasses, DeclarationPasses, EntityType, Rank, Owl, Rdfs, TYPE, AxiomProperty, Describes;
    Ranks();
    DeclaringPasses();
    forall t | t in graph ensures t in Done(graph, 12) + TypedBy(graph, passes) <==> !Loose(t) {
      RankedAxiom(t.p);
      if Declares(t) {
        DeclarationTyped(graph, t);
      }
    }
  }

  lemma RankedAxiom(p: Node)
    ensures Rank(p) < 12 <==> AxiomProperty(p)
  {
    hide Owl, Rdfs;
    Ranks();
  }

  lemma DeclarationTyped(graph: set<Triple>, t: Triple)
    requires t in graph && Declares(t)
    ensures t in TypedBy(graph, CharacteristicPasses() + DeclarationPasses())
  {
    hide EntityType, TYPE, CharacteristicPasses, DeclarationPasses;
    var c :| t.o == EntityType(c);
    var pass := EntityPass(c);
    assert t in Candidates(graph, {}, pass.source);
  }

  function Inverses(test: SubjectTest, kind: BinaryClass): Pass {
    ByStatement(WithProperty(Owl(InverseOf)), States(Always(Binary(kind)), test, true))
  }

  // The two passes over inverse properties take one half of them each.
  lemma InversesPicked(graph: set<Triple>)
    requires Flat(graph)
    ensures var named, unnamed := Inverses(IriSubject, InverseObjectProperties),
        Inverses(OtherSubject, BinaryClass.ObjectInverseOf);
      && Picked(graph, named) !! Picked(graph, unnamed) &&
          Done(graph, 0) == Picked(graph, named) + Picked(graph, unnamed)
      && (forall t :: t in Picked(graph, named) ==> (Allowed(graph, named.claim, t) <==> Acceptable(graph, t)))
      && (forall t :: t in Picked(graph, unnamed) ==> (Allowed(graph, unnamed.claim, t) <==> Acceptable(graph, t)))
      && (forall t :: t in graph && t.p == Owl(InverseOf) <==> t in Picked(graph, named) + Picked(graph, unnamed))
  {
    hide Owl, Rank, Acceptable, Flat, AxiomProperty;
    InverseTriples(graph);
  }

  lemma InverseTriples(graph: set<Triple>)
    requires Flat(graph)
    ensures forall p :: Rank(p) < 0 <==> p == Owl(InverseOf)
    ensures forall t :: t in graph && t.p == Owl(InverseOf) ==> (IsResource(t.o) <==> Acceptable(graph, t))
  {
    Ranks();
    hide Owl, Rank, Acceptable, AxiomProperty;
    forall p ensures Rank(p) < 0 <==> p == Owl(InverseOf) { FirstRank(p); }
    forall t | t in graph && t.p == Owl(InverseOf) ensures IsResource(t.o) <==> Acceptable(graph, t) {
      AllowedIffAcceptable(graph, t, Always(Binary(InverseObjectProperties)), true);
    }
  }

  lemma InversesTaken(graph: set<Triple>)
    requires Flat(graph)
    ensures var r := ApplyPasses(graph, [], ListAxiomPasses());
      && (r.Ok? <==> forall t :: t in graph && t.p == Owl(InverseOf) ==> Acceptable(graph, t))
      && (r.Ok? ==> Claimed(r.value) == Done(graph, 0) && Singles(r.value))
      && (r.Err? ==> r.error == Malformed)
  {
    var named, unnamed := Inverses(IriSubject, InverseObjectProperties),
        Inverses(OtherSubject, BinaryClass.ObjectInverseOf);
    var others := ListAxiomPasses()[2..];
    assert ListAxiomPasses() == [named] + ([unnamed] + others) by { hide Owl; }
    assert Claimed([]) == {};
    OthersIdle(graph);
    InversesPicked(graph);
    hide ListAxiomPasses, ApplyPass, Claimed, Singles, Owl, Done, Idle, Flat, Allowed, Picked, Acceptable;
    PassTaken(graph, [], named);
    var r := ApplyPass(graph, [], named);
    if r.Ok? {
      PassTaken(graph, r.value, unnamed);
      assert ([unnamed] + others)[1..] == others && ([named] + ([unnamed] + others))[1..] == [unnamed] + others;
      if ApplyPass(graph, r.value, unnamed).Ok? {
        IdlePasses(graph, ApplyPass(graph, r.value, unnamed).value, others);
      }
    }
  }

  lemma FirstRank(p: Node)
    ensures Rank(p) >= -1 && (Rank(p) == -1 ==> p == Owl(InverseOf))
  {
    hide Owl, Rdfs;
  }

  lemma OthersIdle(graph: set<Triple>)
    requires Flat(graph)
    ensures forall pass :: pass in ListAxiomPasses()[2..] ==> Idle(graph, pass)
    ensures Idle(graph, Differences())
  {
    OwlForeign();
    hide Owl, Foreign, Flat, Candidates, SubjectsOf;
    NoGroups(graph, AllDisjointClasses);
    NoGroups(graph, AllDisjointProperties);
    NoGroups(graph, AllDifferent);
    ForeignIdle(graph, ListAxiomPasses()[2], DisjointUnionOf);
  }

  // Every axiom belongs to one of the two phases that take axioms.
  lemma AcceptableByPhase(graph: set<Triple>)
    requires Flat(graph)
    ensures (forall t :: t in graph && AxiomProperty(t.p) ==> Acceptable(graph, t)) <==>
      && (forall t :: t in graph && t.p == Owl(InverseOf) ==> Acceptable(graph, t))
      && AcceptableFrom(graph, 0)
  {
    Ranks();
    hide Acceptable, Owl, Rdfs;
    forall t | t in graph && AxiomProperty(t.p) ensures t.p == Owl(InverseOf) || 0 <= Rank(t.p) < 12 {
      FirstRank(t.p);
    }
    forall t | t in graph && 0 <= Rank(t.p) < 12 ensures AxiomProperty(t.p) {}
  }

  function EarlyPasses(): seq<Pass> {
    ExpressionPasses() + RestrictionPasses() +
    (ListAxiomPasses() + ([Differences()] + AxiomPasses() + (CharacteristicPasses() + DeclarationPasses())))
  }

  // The assertions come last.
  lemma PhasesInOrder()
    ensures AllPasses() == EarlyPasses() + AssertionPasses()
  {
    hide ExpressionPasses, RestrictionPasses, ListAxiomPasses, Differences, AxiomPasses, CharacteristicPasses;
    hide DeclarationPasses, AssertionPasses;
  }

  lemma FlatEnds(graph: set<Triple>, claims: seq<Proposal>)
    requires Flat(graph) && Claimed(claims) == Done(graph, 12) && Singles(claims)
    ensures var r := ApplyPasses(graph, claims, CharacteristicPasses() + DeclarationPasses());
      r.Ok? && Claimed(r.value) == Firm(graph) && Singles(r.value)
  {
    hide CharacteristicPasses, DeclarationPasses, ApplyPass, Claimed, Singles, Flat, Done, Firm, TypedBy;
    DeclaringPasses();
    FirmClaimed(graph);
    DeclarationsFrom(graph, claims, CharacteristicPasses() + DeclarationPasses());
  }

  // What the passes before the assertions make of a flat graph.
  lemma FlatPasses(graph: set<Triple>)
    requires Flat(graph)
    ensures var r := ApplyPasses(graph, [], EarlyPasses());
      && (r.Ok? <==> forall t :: t in graph && AxiomProperty(t.p) ==> Acceptable(graph, t))
      && (r.Ok? ==> Claimed(r.value) == Firm(graph) && Singles(r.value))
      && (r.Err? ==> r.error == Malformed)
  {
    var early, middle := ExpressionPasses() + RestrictionPasses(), [Differences()] + AxiomPasses();
    var late := CharacteristicPasses() + DeclarationPasses();
    hide ExpressionPasses, RestrictionPasses, ListAxiomPasses, Differences, AxiomPasses, CharacteristicPasses;
    hide DeclarationPasses, ApplyPass, Claimed, Singles, Acceptable, Firm, AxiomProperty, Rank, Owl, Idle, Flat;
    ExpressionsIdle(graph);
    InversesTaken(graph);
    OthersIdle(graph);
    AcceptableByPhase(graph);
    PassesConcat(graph, [], early, ListAxiomPasses() + (middle + late));
    IdlePasses(graph, [], early);
    PassesConcat(graph, [], ListAxiomPasses(), middle + late);
    var inverses := ApplyPasses(graph, [], ListAxiomPasses());
    if inverses.Ok? {
      PassesConcat(graph, inverses.value, middle, late);
      PassesConcat(graph, inverses.value, [Differences()], AxiomPasses());
      IdlePasses(graph, inverses.value, [Differences()]);
      AxiomsFrom(graph, inverses.value, 0);
      assert AxiomPasses()[0..] == AxiomPasses();
      var axioms := ApplyPasses(graph, inverses.value, middle);
      if axioms.Ok? {
        FlatEnds(graph, axioms.value);
      }
    }
  }
}
