// The last passes: which triples end up in an assertion, and which flat graphs
// lift.
module Assertions {
  import opened Rdf
  import opened RdfLists
  import opened Ordering
  import opened Kinds
  import opened Elements
  import opened Passes
  import opened Lifting
  import opened Conservation
  import opened Conformance
  import opened Choices
  import opened Acceptance
  import opened Gates

  // What a pass of assertions takes

  predicate Gated(rule: StatementRule, known: set<Node>, t: Triple) {
    match rule
    case AssertsClass => t.p == TYPE && IsResource(t.o) && t.o in known
    case AssertsProperty(data) =>
      IsResource(t.o) != data && t.p in known && if data then t.p.IRI? else IsResource(t.p)
    case _ => false
  }

  predicate Asserting(pass: Pass) {
    pass == ByStatement(AnyType, AssertsClass) ||
        (pass.ByStatement? && pass.source == Unclaimed && pass.claim.AssertsProperty?)
  }

  predicate IsNegation(kind: Kind) {
    kind == Frame(NegativeObjectPropertyAssertion) || kind == Frame(NegativeDataPropertyAssertion)
  }

  // The claims that were added are assertions, or negative ones.

  ghost predicate AddsAssertions(a: seq<Proposal>, b: seq<Proposal>) {
    a <= b && forall i :: |a| <= i < |b| ==> IsAssertion(b[i].element.kind)
  }

  ghost predicate AddsNegations(a: seq<Proposal>, b: seq<Proposal>) {
    a <= b && forall i :: |a| <= i < |b| ==> IsNegation(b[i].element.kind)
  }

  lemma OneAsserted(graph: set<Triple>, known: set<Node>, pass: Pass, claims: seq<Proposal>, t: Triple)
    requires Asserting(pass) && (if pass.claim.AssertsClass? then t.p == TYPE else t !in Claimed(claims))
    ensures var r := ApplyItem(graph, known, pass, claims, Stated(t));
      && r.Ok? && Claimed(r.value) == Claimed(claims) + (if Gated(pass.claim, known, t) then {t} else {})
      && AddsAssertions(claims, r.value)
  {
    hide Claimed, TYPE;
    var step := StatementStep(graph, Claimed(claims), known, t, pass.claim);
    if step.value.Some? {
      ClaimedPlus(claims, step.value.value);
    }
  }

  lemma {:induction false} AllAsserted(graph: set<Triple>, known: set<Node>, pass: Pass, claims: seq<Proposal>,
      triples: seq<Triple>)
    requires Asserting(pass) && forall i, j :: 0 <= i < j < |triples| ==> triples[i] != triples[j]
    requires forall t :: t in triples ==> if pass.claim.AssertsClass? then t.p == TYPE else t !in Claimed(claims)
    ensures var r := ApplyItems(graph, known, pass, claims, AllStated(triples));
      && r.Ok? && Claimed(r.value) == Claimed(claims) + (set t | t in triples && Gated(pass.claim, known, t))
      && AddsAssertions(claims, r.value)
    decreases |triples|
  {
    hide Claimed, ApplyItem, Gated, TYPE;
    if triples != [] {
      var t, rest := triples[0], triples[1..];
      assert AllStated(triples)[0] == Stated(t) && AllStated(triples)[1..] == AllStated(rest);
      assert triples == [t] + rest && t !in rest;
      OneAsserted(graph, known, pass, claims, t);
      AllAsserted(graph, known, pass, ApplyItem(graph, known, pass, claims, Stated(t)).value, rest);
    }
  }

  lemma PassAsserted(graph: set<Triple>, claims: seq<Proposal>, pass: Pass)
    requires Asserting(pass)
    ensures var r := ApplyPass(graph, claims, pass);
      && r.Ok? && AddsAssertions(claims, r.value)
      && Claimed(r.value) == Claimed(claims) + (set t | t in graph &&
          Gated(pass.claim, Known(pass, ElementsOf(claims)), t))
  {
    hide Claimed, TYPE, Known;
    TriplesOrdered();
    var known := Known(pass, ElementsOf(claims));
    var found := Candidates(graph, Claimed(claims), pass.source);
    var triples := Sorted(found, TripleLe);
    assert forall t :: t in triples <==> t in found;
    AllAsserted(graph, known, pass, claims, triples);
  }

  // Negative assertions

  lemma OneNegated(graph: set<Triple>, known: set<Node>, pass: Pass, claims: seq<Proposal>, item: Item)
    requires pass.ByStatement? && pass.claim.AssertsNegation? && ApplyItem(graph, known, pass, claims, item).Ok?
    ensures AddsNegations(claims, ApplyItem(graph, known, pass, claims, item).value)
  {
    hide Claimed, TYPE, HasAny, Value, SOURCE_INDIVIDUAL, ASSERTION_PROPERTY, TARGET_INDIVIDUAL, TARGET_VALUE;
  }

  lemma {:induction false} AllNegated(graph: set<Triple>, known: set<Node>, pass: Pass, claims: seq<Proposal>,
      items: seq<Item>)
    requires pass.ByStatement? && pass.claim.AssertsNegation? && ApplyItems(graph, known, pass, claims, items).Ok?
    ensures AddsNegations(claims, ApplyItems(graph, known, pass, claims, items).value)
    decreases |items|
  {
    hide ApplyItem;
    if items != [] {
      OneNegated(graph, known, pass, claims, items[0]);
      AllNegated(graph, known, pass, ApplyItem(graph, known, pass, claims, items[0]).value, items[1..]);
    }
  }

  lemma PassNegated(graph: set<Triple>, claims: seq<Proposal>, pass: Pass)
    requires pass.ByStatement? && pass.claim.AssertsNegation? && ApplyPass(graph, claims, pass).Ok?
    ensures AddsNegations(claims, ApplyPass(graph, claims, pass).value)
  {
    hide Claimed, Known, Items, ElementsOf;
    AllNegated(graph, Known(pass, ElementsOf(claims)), pass, claims, Items(graph, Claimed(claims), pass));
  }

  // What has been claimed by other elements than assertions.
  ghost function Rich(claims: seq<Proposal>): set<Triple> {
    set i, t | 0 <= i < |claims| && !IsAssertion(claims[i].element.kind) && t in claims[i].triples :: t
  }

  lemma AssertionsAreNotRich(a: seq<Proposal>, b: seq<Proposal>)
    requires AddsAssertions(a, b)
    ensures Rich(b) == Rich(a)
  {
    forall t | t in Rich(a) ensures t in Rich(b) {
      var i :| 0 <= i < |a| && !IsAssertion(a[i].element.kind) && t in a[i].triples;
      assert b[i] == a[i];
    }
  }

  lemma NegationsAreRich(a: seq<Proposal>, b: seq<Proposal>)
    requires AddsNegations(a, b)
    ensures Rich(a) <= Rich(b) <= Claimed(b) && Claimed(b) == Claimed(a) + Rich(b)
  {
    forall i | 0 <= i < |a| ensures b[i] == a[i] {}
    forall t | t in Rich(a) ensures t in Rich(b) {
      var i :| 0 <= i < |a| && !IsAssertion(a[i].element.kind) && t in a[i].triples;
      assert b[i] == a[i];
    }
    forall t | t in Claimed(a) ensures t in Claimed(b) {
      var i :| 0 <= i < |a| && t in a[i].triples;
      assert b[i] == a[i];
    }
    forall t | t in Claimed(b) ensures t in Claimed(a) + Rich(b) {
      var i :| 0 <= i < |b| && t in b[i].triples;
      if i < |a| {
        assert t in a[i].triples;
      }
    }
  }

  // Assertions of both kinds name nothing.
  lemma AssertionsNameNothing(e: Element)
    requires IsAssertion(e.kind) || IsNegation(e.kind)
    ensures ClassExpressions(e) == {} && ObjectProperties(e) == {} && DataProperties(e) == {}
  {
    hide Owl, ON_PROPERTY, ON_CLASS, ValuesAt;
  }

  lemma KnownSame(a: seq<Proposal>, b: seq<Proposal>)
    requires AddsAssertions(a, b) || AddsNegations(a, b)
    ensures KnownClassExpressions(ElementsOf(b)) == KnownClassExpressions(ElementsOf(a))
    ensures KnownObjectProperties(ElementsOf(b)) == KnownObjectProperties(ElementsOf(a))
    ensures KnownDataProperties(ElementsOf(b)) == KnownDataProperties(ElementsOf(a))
  {
    hide ClassExpressions, ObjectProperties, DataProperties, Owl, IsAssertion, IsNegation;
    var before, after := ElementsOf(a), ElementsOf(b);
    forall e | e in before ensures e in after {
      var i :| 0 <= i < |a| && before[i] == e;
      assert after[i] == e;
    }
    forall e | e in after ensures e in before ||
        (ClassExpressions(e) == {} && ObjectProperties(e) == {} && DataProperties(e) == {}) {
      var i :| 0 <= i < |b| && after[i] == e;
      if i < |a| {
        assert before[i] == e;
      } else {
        AssertionsNameNothing(e);
      }
    }
  }

  // The five passes

  // What the three passes of positive assertions take, by what these elements name.
  function Taken(graph: set<Triple>, elements: seq<Element>): set<Triple> {
    set t | t in graph &&
      (Gated(AssertsClass, KnownClassExpressions(elements), t) ||
        Gated(AssertsProperty(false), KnownObjectProperties(elements), t) ||
        Gated(AssertsProperty(true), KnownDataProperties(elements), t))
  }

  lemma FivePasses(graph: set<Triple>, claims: seq<Proposal>)
    ensures var classes, objects, negative := ByStatement(AnyType, AssertsClass),
        ByStatement(Unclaimed, AssertsProperty(false)),
        ByStatement(WithType(NEGATIVE_ASSERTION), AssertsNegation(false));
      var data, others := ByStatement(Unclaimed, AssertsProperty(true)),
          ByStatement(WithType(NEGATIVE_ASSERTION), AssertsNegation(true));
      AssertionPasses() == [classes] + ([objects] + ([negative] + ([data] + [others])))
  {
    hide NEGATIVE_ASSERTION;
  }

  // One pass after the other; negative assertions may fail.
  lemma AssertionsRun(graph: set<Triple>, claims: seq<Proposal>)
    requires Claimed(claims) == Rich(claims) && ApplyPasses(graph, claims, AssertionPasses()).Ok?
    ensures var last := ApplyPasses(graph, claims, AssertionPasses()).value;
      Claimed(last) == Rich(last) + Taken(graph, ElementsOf(last))
  {
    var classes, objects, negative := ByStatement(AnyType, AssertsClass),
        ByStatement(Unclaimed, AssertsProperty(false)),
      ByStatement(WithType(NEGATIVE_ASSERTION), AssertsNegation(false));
    var data, others := ByStatement(Unclaimed, AssertsProperty(true)),
        ByStatement(WithType(NEGATIVE_ASSERTION), AssertsNegation(true));
    hide ApplyPass, Claimed, Rich, Taken, AddsAssertions, AddsNegations, NEGATIVE_ASSERTION, AssertionPasses;
    FivePasses(graph, claims);
    AfterOne(graph, claims, classes, [objects] + ([negative] + ([data] + [others])));
    var c1 := ApplyPass(graph, claims, classes).value;
    AfterOne(graph, c1, objects, [negative] + ([data] + [others]));
    var c2 := ApplyPass(graph, c1, objects).value;
    AfterOne(graph, c2, negative, [data] + [others]);
    var c3 := ApplyPass(graph, c2, negative).value;
    AfterOne(graph, c3, data, [others]);
    var c4 := ApplyPass(graph, c3, data).value;
    AfterOne(graph, c4, others, []);
    var c5 := ApplyPass(graph, c4, others).value;
    PassAsserted(graph, claims, classes);
    PassAsserted(graph, c1, objects);
    PassNegated(graph, c2, negative);
    PassAsserted(graph, c3, data);
    PassNegated(graph, c4, others);
    AllTogether(graph, claims, c1, c2, c3, c4, c5);
  }

  lemma AfterOne(graph: set<Triple>, claims: seq<Proposal>, pass: Pass, rest: seq<Pass>)
    ensures var r := ApplyPass(graph, claims, pass);
      && (ApplyPasses(graph, claims, [pass] + rest).Ok? ==> r.Ok?)
      && (r.Ok? ==> ApplyPasses(graph, claims, [pass] + rest) == ApplyPasses(graph, r.value, rest))
    ensures rest == [] ==> ApplyPasses(graph, claims, [pass]) == ApplyPass(graph, claims, pass)
  {
    hide ApplyPass;
    assert ([pass] + rest)[1..] == rest && [pass][1..] == [];
  }

  function GatedIn(graph: set<Triple>, rule: StatementRule, known: set<Node>): set<Triple> {
    set t | t in graph && Gated(rule, known, t)
  }

  lemma AllTogether(graph: set<Triple>, c0: seq<Proposal>, c1: seq<Proposal>, c2: seq<Proposal>, c3: seq<Proposal>,
      c4: seq<Proposal>, c5: seq<Proposal>)
    requires Claimed(c0) == Rich(c0)
    requires AddsAssertions(c0, c1) && AddsAssertions(c1, c2) && AddsNegations(c2, c3) && AddsAssertions(c3, c4) &&
        AddsNegations(c4, c5)
    requires Claimed(c1) == Claimed(c0) + GatedIn(graph, AssertsClass, KnownClassExpressions(ElementsOf(c0)))
    requires Claimed(c2) == Claimed(c1) + GatedIn(graph, AssertsProperty(false), KnownObjectProperties(ElementsOf(c1)))
    requires Claimed(c4) == Claimed(c3) + GatedIn(graph, AssertsProperty(true), KnownDataProperties(ElementsOf(c3)))
    ensures Claimed(c5) == Rich(c5) + Taken(graph, ElementsOf(c5))
  {
    hide Claimed, Rich, Gated, ElementsOf, KnownClassExpressions, KnownObjectProperties, KnownDataProperties;
    hide AddsAssertions, AddsNegations;
    AssertionsAreNotRich(c0, c1);
    AssertionsAreNotRich(c1, c2);
    NegationsAreRich(c2, c3);
    AssertionsAreNotRich(c3, c4);
    NegationsAreRich(c4, c5);
    KnownSame(c0, c1);
    KnownSame(c1, c2);
    KnownSame(c2, c3);
    KnownSame(c3, c4);
    KnownSame(c4, c5);
  }

  // Before them there are no assertions

  predicate Earlier(pass: Pass) {
    pass.BySubject? || pass.claim.Declares? || pass.claim.States? || pass.claim.OwnsMembers?
  }

  // The graph, and not what other elements name, decides about the class.
  predicate Ungated(kind: Kind) {
    !SideOf(kind).ClassGate? && !SideOf(kind).PropertyGate? && !SideOf(kind).NegationGate?
  }

  lemma UngatedIsNoAssertion(kind: Kind)
    requires Ungated(kind)
    ensures !IsAssertion(kind) && !IsNegation(kind)
  {
  }

  lemma SubjectUngated(graph: set<Triple>, consumed: set<Triple>, pass: Pass, s: Node, claim: Proposal)
    requires pass.BySubject? && Sided(pass) &&
        SubjectStep(graph, consumed, s, pass.property, pass.rule) == Ok(Some(claim))
    ensures Ungated(claim.element.kind)
  {
    hide TYPE, DATATYPE, ON_DATATYPE, WITH_RESTRICTIONS, Value, ListAt, ParseFacets, CellTriples, RestrictsStep;
    match pass.rule {
      case Restricts(form) => RestrictsUngated(graph, consumed, s, pass.property, form, claim);
      case HasFacets =>
      case _ => hide SideOf;
    }
  }

  lemma RestrictsUngated(graph: set<Triple>, consumed: set<Triple>, s: Node, p: Node, form: Form, claim: Proposal)
    requires SidedForm(form) && RestrictsStep(graph, consumed, s, p, form) == Ok(Some(claim))
    ensures Ungated(claim.element.kind)
  {
    hide TYPE, RESTRICTION, ON_PROPERTY, ON_PROPERTIES, ON_CLASS, ON_DATA_RANGE, Value, ListAt, HasAny;
    hide PropertyFamily, CellTriples;
    match form {
      case Filler(_, _, _) => hide SideOf;
      case Qualified(_, _) => hide SideOf;
      case Unqualified(_, _) => hide SideOf; hide IsNonNegativeInteger;
      case _ => hide TRUE_BOOLEAN;
    }
  }

  lemma StatementUngated(graph: set<Triple>, consumed: set<Triple>, known: set<Node>, pass: Pass, t: Triple,
      claim: Proposal)
    requires pass.ByStatement? && Earlier(pass) && Sided(pass)
    requires StatementStep(graph, consumed, known, t, pass.claim) == Ok(Some(claim))
    ensures Ungated(claim.element.kind)
  {
    hide TYPE, DATATYPE, CLASS, DATATYPE_PROPERTY, MembersProperty, ListAt, AllDataProperties, CellTriples, MEMBERS;
    hide SideOf;
  }

  ghost predicate AllUngated(claims: seq<Proposal>) {
    forall i :: 0 <= i < |claims| ==> Ungated(claims[i].element.kind)
  }

  lemma {:induction false} ItemsUngated(graph: set<Triple>, known: set<Node>, pass: Pass, claims: seq<Proposal>,
      items: seq<Item>)
    requires Earlier(pass) && Sided(pass) && AllUngated(claims) && ApplyItems(graph, known, pass, claims, items).Ok?
    ensures AllUngated(ApplyItems(graph, known, pass, claims, items).value)
    decreases |items|
  {
    hide Sided, Ungated, Claimed, SubjectStep, StatementStep;
    if items != [] {
      var next := ApplyItem(graph, known, pass, claims, items[0]).value;
      if next != claims {
        var claim := Step(graph, Claimed(claims), known, pass, items[0]).value.value;
        if pass.BySubject? {
          SubjectUngated(graph, Claimed(claims), pass, items[0].node, claim);
        } else {
          StatementUngated(graph, Claimed(claims), known, pass, items[0].triple, claim);
        }
      }
      ItemsUngated(graph, known, pass, next, items[1..]);
    }
  }

  lemma {:induction false} PassesUngated(graph: set<Triple>, claims: seq<Proposal>, passes: seq<Pass>)
    requires AllUngated(claims) && ApplyPasses(graph, claims, passes).Ok?
    requires forall pass :: pass in passes ==> Earlier(pass) && Sided(pass)
    ensures AllUngated(ApplyPasses(graph, claims, passes).value)
    decreases |passes|
  {
    hide AllUngated, Sided, Earlier, Claimed, Known, Items, ElementsOf;
    if passes != [] {
      assert passes[0] in passes && forall pass :: pass in passes[1..] ==> pass in passes;
      ItemsUngated(graph, Known(passes[0], ElementsOf(claims)), passes[0], claims,
          Items(graph, Claimed(claims), passes[0]));
      PassesUngated(graph, ApplyPass(graph, claims, passes[0]).value, passes[1..]);
    }
  }

  lemma EarlyExpressions()
    ensures forall pass :: pass in ExpressionPasses() + RestrictionPasses() ==> Earlier(pass)
  {
    hide Owl, DATATYPE, CLASS, WITH_RESTRICTIONS;
  }

  lemma EarlyAxioms()
    ensures forall pass :: pass in ListAxiomPasses() + ([Differences()] + AxiomPasses()) ==> Earlier(pass)
  {
    hide Owl, Rdfs, ALL_DIFFERENT;
  }

  lemma EarlyDeclarations()
    ensures forall pass :: pass in CharacteristicPasses() + DeclarationPasses() ==> Earlier(pass)
  {
    hide Owl, DATATYPE, CLASS, DATATYPE_PROPERTY, FUNCTIONAL_PROPERTY;
  }

  lemma EarlyTable()
    ensures forall pass :: pass in EarlyPasses() ==> Earlier(pass) && Sided(pass) && Typical(pass)
  {
    hide ExpressionPasses, RestrictionPasses, ListAxiomPasses, Differences, AxiomPasses, CharacteristicPasses;
    hide DeclarationPasses, AssertionPasses, Sided, Typical, Earlier, AllPasses;
    EarlyExpressions();
    EarlyAxioms();
    EarlyDeclarations();
    TableIsSided();
    TableIsTypical();
    PhasesInOrder();
    forall pass | pass in EarlyPasses() ensures pass in AllPasses() {}
  }

  lemma UngatedIsRich(claims: seq<Proposal>)
    requires AllUngated(claims)
    ensures Rich(claims) == Claimed(claims)
  {
    hide Ungated, IsAssertion;
    forall i | 0 <= i < |claims| ensures !IsAssertion(claims[i].element.kind) {
      UngatedIsNoAssertion(claims[i].element.kind);
    }
  }

  lemma EarlyIsRich(graph: set<Triple>)
    requires ApplyPasses(graph, [], EarlyPasses()).Ok?
    ensures var claims := ApplyPasses(graph, [], EarlyPasses()).value;
      Rich(claims) == Claimed(claims) && AllUngated(claims)
  {
    hide EarlyPasses, Rich, Claimed, ApplyPass, Earlier, Sided, Typical, Ungated;
    EarlyTable();
    PassesUngated(graph, [], EarlyPasses());
    UngatedIsRich(ApplyPasses(graph, [], EarlyPasses()).value);
  }

  // What the elements name, told by what they print

  ghost predicate Structural(e: Element) {
    !e.Faceted? && !IsAssertion(e.kind)
  }

  ghost predicate ClassThere(graph: set<Triple>, elements: seq<Element>, n: Node) {
    || n == Owl(Thing) || n == Owl(Nothing)
    || exists e :: e in elements && Structural(e) && ClassNamed(graph, e.AsTriples(), n)
  }

  ghost predicate ObjectThere(graph: set<Triple>, elements: seq<Element>, n: Node) {
    exists e :: e in elements && Structural(e) && ObjectNamed(graph, e.AsTriples(), n)
  }

  ghost predicate DataThere(graph: set<Triple>, elements: seq<Element>, n: Node) {
    exists e :: e in elements && Structural(e) && DataNamed(graph, e.AsTriples(), n)
  }

  // The triple is an assertion about a class, an object property or a data
  // property that stands there.
  ghost predicate Admitted(graph: set<Triple>, elements: seq<Element>, t: Triple) {
    || (t.p == TYPE && IsResource(t.o) && ClassThere(graph, elements, t.o))
    || (IsResource(t.o) && ObjectThere(graph, elements, t.p))
    || (t.o.Literal? && t.p.IRI? && DataThere(graph, elements, t.p))
  }

  ghost predicate AllProper(graph: set<Triple>, elements: seq<Element>) {
    forall e :: e in elements ==> Conforms(e) && Chosen(graph, elements, e)
  }

  lemma ElementThere(graph: set<Triple>, elements: seq<Element>, e: Element, n: Node)
    requires AllProper(graph, elements) && e in elements && IsResource(n)
    ensures n in ClassExpressions(e) <==> Structural(e) && ClassNamed(graph, e.AsTriples(), n)
    ensures n in ObjectProperties(e) <==> Structural(e) && ObjectNamed(graph, e.AsTriples(), n)
    ensures n in DataProperties(e) <==> Structural(e) && DataNamed(graph, e.AsTriples(), n)
  {
    hide Conforms, Chosen, ClassExpressions, ObjectProperties, DataProperties, ClassNamed, ObjectNamed, DataNamed;
    hide IsAssertion;
    if e.Faceted? {
      FacetsNameNothing(e, n);
    } else if IsAssertion(e.kind) {
      AssertionsNameNothing(e);
    } else {
      ElementNames(graph, elements, e, n);
    }
  }

  lemma KnownIsThere(graph: set<Triple>, elements: seq<Element>, n: Node)
    requires AllProper(graph, elements) && IsResource(n)
    ensures n in KnownClassExpressions(elements) <==> ClassThere(graph, elements, n)
    ensures n in KnownObjectProperties(elements) <==> ObjectThere(graph, elements, n)
    ensures n in KnownDataProperties(elements) <==> DataThere(graph, elements, n)
  {
    hide AllProper, ClassExpressions, ObjectProperties, DataProperties, ClassNamed, ObjectNamed, DataNamed;
    hide Structural, Owl;
    forall e | e in elements
      ensures n in ClassExpressions(e) <==> Structural(e) && ClassNamed(graph, e.AsTriples(), n)
      ensures n in ObjectProperties(e) <==> Structural(e) && ObjectNamed(graph, e.AsTriples(), n)
      ensures n in DataProperties(e) <==> Structural(e) && DataNamed(graph, e.AsTriples(), n)
    {
      ElementThere(graph, elements, e, n);
    }
  }

  lemma TakenIsAdmitted(graph: set<Triple>, elements: seq<Element>, t: Triple)
    requires AllProper(graph, elements) && WellFormed(graph) && t in graph
    ensures t in Taken(graph, elements) <==> Admitted(graph, elements, t)
  {
    hide AllProper, KnownClassExpressions, KnownObjectProperties, KnownDataProperties, ClassThere, ObjectThere;
    hide DataThere, TYPE;
    KnownIsThere(graph, elements, t.p);
    if IsResource(t.o) {
      KnownIsThere(graph, elements, t.o);
    }
  }

  lemma ProperClaims(graph: set<Triple>, passes: seq<Pass>)
    requires WellFormed(graph) && ApplyPasses(graph, [], passes).Ok?
    requires forall pass :: pass in passes ==> Sided(pass) && Typical(pass)
    ensures AllProper(graph, ElementsOf(ApplyPasses(graph, [], passes).value))
  {
    hide ApplyPasses, Sided, Typical, Conforms, Chosen, WellFormed;
    PassesConform(graph, [], passes);
    PassesChosen(graph, [], passes);
  }

  // The theorem, for every graph: when the passes end without an error, a triple
  // has been claimed if and only if it is part of an element that is no
  // assertion, or is an assertion about what such elements have in their places.
  lemma ClaimedIff(graph: set<Triple>, claims: seq<Proposal>)
    requires WellFormed(graph) && ApplyPasses(graph, [], AllPasses()) == Ok(claims)
    ensures forall t :: t in graph ==>
        (t in Claimed(claims) <==> t in Rich(claims) || Admitted(graph, ElementsOf(claims), t))
  {
    hide AllPasses, EarlyPasses, AssertionPasses, Claimed, Rich, Taken, Admitted, AllProper, Sided, Typical;
    hide WellFormed;
    PhasesInOrder();
    PassesConcat(graph, [], EarlyPasses(), AssertionPasses());
    EarlyIsRich(graph);
    AssertionsRun(graph, ApplyPasses(graph, [], EarlyPasses()).value);
    TableIsSided();
    TableIsTypical();
    ProperClaims(graph, AllPasses());
    forall t | t in graph ensures t in Taken(graph, ElementsOf(claims)) <==> Admitted(graph, ElementsOf(claims), t) {
      TakenIsAdmitted(graph, ElementsOf(claims), t);
    }
  }

  // So lifting ends in an unsupported triple exactly where one is neither.
  lemma UnsupportedIff(graph: set<Triple>, claims: seq<Proposal>)
    requires WellFormed(graph) && ApplyPasses(graph, [], AllPasses()) == Ok(claims)
    ensures Lift(graph) == Err(Unsupported) <==>
      exists t :: t in graph && t !in Rich(claims) && !Admitted(graph, ElementsOf(claims), t)
  {
    hide AllPasses, Claimed, Rich, Admitted, StableSort, ElementsOf, ApplyPasses;
    ClaimedIff(graph, claims);
  }

  // Flat graphs

  // Without negative assertions the passes find no fault.
  lemma FlatRun(graph: set<Triple>, claims: seq<Proposal>)
    requires forall t :: t in graph && t.p == TYPE ==> t.o != NEGATIVE_ASSERTION
    ensures var r := ApplyPasses(graph, claims, AssertionPasses());
      && r.Ok? && AddsAssertions(claims, r.value)
      && Claimed(r.value) == Claimed(claims) + Taken(graph, ElementsOf(claims))
  {
    var classes, objects, negative := ByStatement(AnyType, AssertsClass),
        ByStatement(Unclaimed, AssertsProperty(false)),
      ByStatement(WithType(NEGATIVE_ASSERTION), AssertsNegation(false));
    var data, others := ByStatement(Unclaimed, AssertsProperty(true)),
        ByStatement(WithType(NEGATIVE_ASSERTION), AssertsNegation(true));
    assert Idle(graph, negative) && Idle(graph, others) by { hide TYPE, NEGATIVE_ASSERTION; }
    hide ApplyPass, Claimed, Taken, AddsAssertions, NEGATIVE_ASSERTION, AssertionPasses, Idle;
    FivePasses(graph, claims);
    PassAsserted(graph, claims, classes);
    AfterOne(graph, claims, classes, [objects] + ([negative] + ([data] + [others])));
    var c1 := ApplyPass(graph, claims, classes).value;
    PassAsserted(graph, c1, objects);
    AfterOne(graph, c1, objects, [negative] + ([data] + [others]));
    var c2 := ApplyPass(graph, c1, objects).value;
    IdlePass(graph, c2, negative);
    AfterOne(graph, c2, negative, [data] + [others]);
    PassAsserted(graph, c2, data);
    AfterOne(graph, c2, data, [others]);
    var c3 := ApplyPass(graph, c2, data).value;
    IdlePass(graph, c3, others);
    AfterOne(graph, c3, others, []);
    ThreeTogether(graph, claims, c1, c2, c3);
  }

  lemma ThreeTogether(graph: set<Triple>, c0: seq<Proposal>, c1: seq<Proposal>, c2: seq<Proposal>, c3: seq<Proposal>)
    requires AddsAssertions(c0, c1) && AddsAssertions(c1, c2) && AddsAssertions(c2, c3)
    requires Claimed(c1) == Claimed(c0) + GatedIn(graph, AssertsClass, KnownClassExpressions(ElementsOf(c0)))
    requires Claimed(c2) == Claimed(c1) + GatedIn(graph, AssertsProperty(false), KnownObjectProperties(ElementsOf(c1)))
    requires Claimed(c3) == Claimed(c2) + GatedIn(graph, AssertsProperty(true), KnownDataProperties(ElementsOf(c2)))
    ensures AddsAssertions(c0, c3) && Claimed(c3) == Claimed(c0) + Taken(graph, ElementsOf(c0))
  {
    hide Claimed, Gated, ElementsOf, KnownClassExpressions, KnownObjectProperties, KnownDataProperties, IsAssertion;
    KnownSame(c0, c1);
    KnownSame(c1, c2);
  }

  // The class, or the property, stands at one of its places in some triple.

  ghost predicate ClassPlaced(graph: set<Triple>, n: Node) {
    || n == Owl(Thing) || n == Owl(Nothing)
    || exists t :: t in graph && ((n == t.s && ClassSubject(graph, t)) || (n == t.o && ClassObject(graph, t)))
  }

  ghost predicate ObjectPlaced(graph: set<Triple>, n: Node) {
    exists t :: t in graph && ((n == t.s && ObjectSubject(graph, t)) || (n == t.o && ObjectObject(graph, t)))
  }

  ghost predicate DataPlaced(graph: set<Triple>, n: Node) {
    exists t :: t in graph && ((n == t.s && DataSubject(graph, t)) || (n == t.o && DataObject(graph, t)))
  }

  // What an assertion needs to have in the graph.
  ghost predicate Supported(graph: set<Triple>, t: Triple) {
    || (t.p == TYPE && IsResource(t.o) && ClassPlaced(graph, t.o))
    || (IsResource(t.o) && ObjectPlaced(graph, t.p))
    || (t.o.Literal? && t.p.IRI? && DataPlaced(graph, t.p))
  }

  // A loose triple has no place for a class or a property.
  lemma LooseUnplaced(graph: set<Triple>, t: Triple)
    requires Loose(t)
    ensures !ClassSubject(graph, t) && !ClassObject(graph, t) && !ObjectSubject(graph, t) && !ObjectObject(graph, t)
    ensures !DataSubject(graph, t) && !DataObject(graph, t)
  {
    hide Owl, Rdfs, TYPE, IsEntityType, Describes;
    if t.p == TYPE {
      EntityTypesAre();
      TypePositions(graph, t);
    } else {
      ForeignTriple(graph, t);
    }
  }

  // The elements print the triples that are not loose, one each.
  ghost predicate Prints(graph: set<Triple>, elements: seq<Element>) {
    && (forall e :: e in elements ==>
        (e.Declaration? || e.BinaryAxiom?) && !IsAssertion(e.kind) && e.AsTriples() <= Firm(graph))
    && forall t :: t in Firm(graph) ==> exists e :: e in elements && e.AsTriples() == {t}
  }

  lemma SinglesPrint(graph: set<Triple>, claims: seq<Proposal>)
    requires Singles(claims) && Claimed(claims) == Firm(graph) && AllUngated(claims)
    ensures Prints(graph, ElementsOf(claims))
  {
    hide Ungated, IsAssertion, Firm, TYPE;
    var elements := ElementsOf(claims);
    forall e | e in elements
      ensures (e.Declaration? || e.BinaryAxiom?) && !IsAssertion(e.kind) && e.AsTriples() <= Firm(graph)
    {
      var i :| 0 <= i < |claims| && elements[i] == e;
      UngatedIsNoAssertion(e.kind);
      assert claims[i].triples <= Claimed(claims);
    }
    forall t | t in Firm(graph) ensures exists e :: e in elements && e.AsTriples() == {t} {
      var i :| 0 <= i < |claims| && t in claims[i].triples;
      assert elements[i] in elements && SingleClaim(claims[i]);
    }
  }

  lemma PrintedPlace(graph: set<Triple>, e: Element, n: Node)
    requires Conforms(e) && (e.Declaration? || e.BinaryAxiom?) && !IsAssertion(e.kind)
    ensures var t := TheTriple(e);
      && e.AsTriples() == {t} && Structural(e)
      && (ClassNamed(graph, {t}, n) <==> (n == t.s && ClassSubject(graph, t)) || (n == t.o && ClassObject(graph, t)))
      && (ObjectNamed(graph, {t}, n) <==> (n == t.s && ObjectSubject(graph, t)) || (n == t.o && ObjectObject(graph, t)))
      && (DataNamed(graph, {t}, n) <==> (n == t.s && DataSubject(graph, t)) || (n == t.o && DataObject(graph, t)))
  {
    hide Conforms, SingleTriple, ClassNamed, ObjectNamed, DataNamed, ClassSubject, ClassObject, ObjectSubject;
    hide ObjectObject, DataSubject, DataObject, IsAssertion, TYPE;
    if e.Declaration? {
      DeclaredSingle(e);
    } else {
      AxiomSingle(e);
    }
    SingleNames(graph, TheTriple(e), n);
  }

  // Each triple that has a place is what an element prints, and conversely.
  ghost predicate Placing(graph: set<Triple>, e: Element, n: Node, t: Triple) {
    && Structural(e) && t in graph
    && (ClassNamed(graph, e.AsTriples(), n) <==>
        (n == t.s && ClassSubject(graph, t)) || (n == t.o && ClassObject(graph, t)))
    && (ObjectNamed(graph, e.AsTriples(), n) <==>
        (n == t.s && ObjectSubject(graph, t)) || (n == t.o && ObjectObject(graph, t)))
    && (DataNamed(graph, e.AsTriples(), n) <==>
        (n == t.s && DataSubject(graph, t)) || (n == t.o && DataObject(graph, t)))
  }

  lemma ElementPlaces(graph: set<Triple>, elements: seq<Element>, e: Element, n: Node)
    requires Prints(graph, elements) && e in elements && Conforms(e)
    ensures Placing(graph, e, n, TheTriple(e))
  {
    hide Conforms, ClassNamed, ObjectNamed, DataNamed, ClassSubject, ClassObject, ObjectSubject, ObjectObject;
    hide DataSubject, DataObject, IsAssertion, Structural, Element.AsTriples, TheTriple, Loose;
    PrintedPlace(graph, e, n);
    assert TheTriple(e) in Firm(graph);
  }

  lemma PrinterOf(graph: set<Triple>, elements: seq<Element>, t: Triple) returns (e: Element)
    requires Prints(graph, elements) && t in graph && !Loose(t) && forall x :: x in elements ==> Conforms(x)
    ensures e in elements && (e.Declaration? || e.BinaryAxiom?) && TheTriple(e) == t
  {
    hide Conforms, IsAssertion, Element.AsTriples, Loose;
    assert t in Firm(graph);
    e :| e in elements && e.AsTriples() == {t};
    PrintedPlace(graph, e, t.s);
    assert TheTriple(e) in {t};
  }

  lemma ThereIsPlaced(graph: set<Triple>, elements: seq<Element>, n: Node)
    requires Prints(graph, elements) && forall e :: e in elements ==> Conforms(e)
    ensures ClassThere(graph, elements, n) <==> ClassPlaced(graph, n)
    ensures ObjectThere(graph, elements, n) <==> ObjectPlaced(graph, n)
    ensures DataThere(graph, elements, n) <==> DataPlaced(graph, n)
  {
    hide Conforms, ClassNamed, ObjectNamed, DataNamed, ClassSubject, ClassObject, ObjectSubject, ObjectObject;
    hide DataSubject, DataObject, IsAssertion, Structural, Element.AsTriples, Loose, Owl, Prints;
    forall e | e in elements ensures exists t :: Placing(graph, e, n, t) {
      ElementPlaces(graph, elements, e, n);
    }
    forall t | t in graph
      ensures Loose(t) ==> !ClassSubject(graph, t) && !ClassObject(graph, t)
      ensures Loose(t) ==> !ObjectSubject(graph, t) && !ObjectObject(graph, t)
      ensures Loose(t) ==> !DataSubject(graph, t) && !DataObject(graph, t)
      ensures !Loose(t) ==> exists e :: e in elements && Placing(graph, e, n, t)
    {
      if Loose(t) {
        LooseUnplaced(graph, t);
      } else {
        var e := PrinterOf(graph, elements, t);
        ElementPlaces(graph, elements, e, n);
      }
    }
  }

  lemma TakenIsSupported(graph: set<Triple>, elements: seq<Element>, t: Triple)
    requires WellFormed(graph) && Prints(graph, elements) && AllProper(graph, elements) && t in graph
    ensures t in Taken(graph, elements) <==> Supported(graph, t)
  {
    hide Prints, Conforms, Chosen, Taken, ClassThere, ObjectThere, DataThere, ClassPlaced, ObjectPlaced, DataPlaced;
    hide TYPE;
    TakenIsAdmitted(graph, elements, t);
    ThereIsPlaced(graph, elements, t.p);
    ThereIsPlaced(graph, elements, t.o);
  }

  // What is left over of a flat graph when its axioms have been accepted.
  lemma FlatClaims(graph: set<Triple>, early: seq<Proposal>)
    requires Flat(graph) && ApplyPasses(graph, [], EarlyPasses()) == Ok(early)
    ensures var r := ApplyPasses(graph, [], AllPasses());
      && r.Ok? && AddsAssertions(early, r.value) && Claimed(early) == Firm(graph) && Singles(early)
      && forall t :: t in graph ==> (t in Claimed(r.value) <==> !Loose(t) || Supported(graph, t))
  {
    hide AllPasses, EarlyPasses, AssertionPasses, Claimed, Taken, Supported, Prints, AllProper, Sided, Typical, Loose;
    hide Singles, ElementsOf, AxiomProperty, Acceptable, AddsAssertions, Describes;
    PhasesInOrder();
    PassesConcat(graph, [], EarlyPasses(), AssertionPasses());
    FlatPasses(graph);
    NoNegations(graph);
    FlatRun(graph, early);
    EarlyIsRich(graph);
    SinglesPrint(graph, early);
    EarlyTable();
    ProperClaims(graph, EarlyPasses());
    forall t | t in graph ensures t in Taken(graph, ElementsOf(early)) <==> Supported(graph, t) {
      TakenIsSupported(graph, ElementsOf(early), t);
    }
  }

  lemma NoNegations(graph: set<Triple>)
    requires Flat(graph)
    ensures forall t :: t in graph && t.p == TYPE ==> t.o != NEGATIVE_ASSERTION
  {
    hide Owl, Rdfs, TYPE, AxiomProperty, IsEntityType;
    AxiomIsNoType();
    forall t | t in graph && t.p == TYPE ensures t.o != NEGATIVE_ASSERTION {
      if Acceptance.Declares(t) {
        NegationIsNoEntity();
      }
    }
  }

  lemma NegationIsNoEntity()
    ensures !IsEntityType(NEGATIVE_ASSERTION)
  {
    hide Owl, Rdfs, TYPE, FIRST, REST, NIL, MeaningOf;
    Meanings();
  }

  ghost predicate AxiomsAccepted(graph: set<Triple>) {
    forall t :: t in graph && AxiomProperty(t.p) ==> Acceptable(graph, t)
  }

  ghost predicate RestSupported(graph: set<Triple>) {
    forall t :: t in graph && Loose(t) ==> Supported(graph, t)
  }

  // The theorem: a flat graph lifts if and only if its axioms are acceptable and
  // each of its other triples, which is neither a declaration nor an axiom, is
  // an assertion about a class or a property that has a place in the graph.
  lemma FlatLifts(graph: set<Triple>)
    requires Flat(graph)
    ensures Lift(graph).Ok? <==> AxiomsAccepted(graph) && RestSupported(graph)
    ensures Lift(graph).Ok? ==> forall e :: e in Lift(graph).value ==> e.Declaration? || e.BinaryAxiom?
    ensures Lift(graph).Err? ==> Lift(graph).error == if AxiomsAccepted(graph) then Unsupported else Malformed
  {
    hide AllPasses, EarlyPasses, ApplyPasses, Acceptable, AxiomProperty, StableSort, Claimed, Loose, Supported, Firm;
    FlatPasses(graph);
    PhasesInOrder();
    var early := ApplyPasses(graph, [], EarlyPasses());
    if early.Err? {
      PassesConcat(graph, [], EarlyPasses(), AssertionPasses());
    } else {
      FlatClaims(graph, early.value);
      FlatElements(graph, early.value);
    }
  }

  lemma FlatElements(graph: set<Triple>, early: seq<Proposal>)
    requires Lift(graph).Ok? ==> ApplyPasses(graph, [], AllPasses()).Ok?
    requires Lift(graph).Ok? ==> AddsAssertions(early, ApplyPasses(graph, [], AllPasses()).value) && Singles(early)
    ensures Lift(graph).Ok? ==> forall e :: e in Lift(graph).value ==> e.Declaration? || e.BinaryAxiom?
  {
    if Lift(graph).Ok? {
      hide AllPasses, ApplyPasses, StableSort, Conforms, AddsAssertions, Singles, ElementsOf;
      LiftConforms(graph);
      var elements := ElementsOf(ApplyPasses(graph, [], AllPasses()).value);
      StableSortSorts(elements, SortKey);
      forall e | e in Lift(graph).value ensures e.Declaration? || e.BinaryAxiom? {
        assert e in multiset(Lift(graph).value);
        assert e in elements;
        OneOfThem(early, ApplyPasses(graph, [], AllPasses()).value, e);
      }
    }
  }

  lemma OneOfThem(early: seq<Proposal>, claims: seq<Proposal>, e: Element)
    requires AddsAssertions(early, claims) && Singles(early) && Conforms(e) && e in ElementsOf(claims)
    ensures e.Declaration? || e.BinaryAxiom?
  {
    hide Conforms, IsAssertion;
    var i :| 0 <= i < |claims| && ElementsOf(claims)[i] == e;
    if i < |early| {
      assert SingleClaim(early[i]);
    } else {
      AssertionShape(e);
    }
  }

  lemma AssertionShape(e: Element)
    requires Conforms(e) && IsAssertion(e.kind)
    ensures e.BinaryAxiom?
  {
    ShapeOfKind(e);
  }
}
