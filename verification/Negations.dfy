// Which negative assertions are lifted.
module Negations {
  import opened Rdf
  import opened RdfLists
  import opened Ordering
  import opened Kinds
  import opened Elements
  import opened Passes
  import opened Lifting
  import opened Conservation
  import opened Conformance
  import opened Choices
  import opened Acceptance
  import opened Shapes
  import opened Gates
  import opened Assertions
  import opened Faults

  // That the property does not hold between the source and the target.
  datatype Denial = Denial(data: bool, node: Node, source: Node, property: Node, target: Node)

  function Target(data: bool): Node {
    if data then TARGET_VALUE else TARGET_INDIVIDUAL
  }

  function Typing(n: Node): Triple {
    Triple(n, TYPE, NEGATIVE_ASSERTION)
  }

  function Denied(d: Denial): Element {
    var kind := Frame(if d.data then NegativeDataPropertyAssertion else NegativeObjectPropertyAssertion);
    Negated(kind, d.node, NEGATIVE_ASSERTION, Target(d.data), d.source, d.property, d.target)
  }

  // The graph says so of the node, and gives it targets of one sort only.
  ghost predicate Says(graph: set<Triple>, d: Denial) {
    && Typing(d.node) in graph && !Targets(graph, d.node, Target(!d.data))
    && Denies(graph, d.node, d.data, d.source, d.property, d.target)
    && if d.data then d.property.IRI? else IsResource(d.property)
  }

  // One pass

  function NegationPass(data: bool): Pass {
    ByStatement(WithType(NEGATIVE_ASSERTION), AssertsNegation(data))
  }

  ghost predicate Made(graph: set<Triple>, known: set<Node>, data: bool, claimed: set<Triple>, d: Denial) {
    d.data == data && Says(graph, d) && d.property in known && Typing(d.node) !in claimed
  }

  ghost predicate MadeFrom(graph: set<Triple>, known: set<Node>, data: bool, claimed: set<Triple>,
      triples: seq<Triple>, e: Element) {
    exists d: Denial :: Typing(d.node) in triples && Made(graph, known, data, claimed, d) && e == Denied(d)
  }

  lemma MadeIff(graph: set<Triple>, consumed: set<Triple>, known: set<Node>, d: Denial)
    requires Typing(d.node) in graph
    ensures Makes(AssertsNegationStep(graph, consumed, known, Typing(d.node), d.data), Denied(d)) <==>
      Made(graph, known, d.data, consumed, d)
  {
    hide TYPE, Owl, Makes, AssertsNegationStep, Denies, Targets, Negated;
    NegationIff(graph, consumed, known, Typing(d.node), d.data, d.source, d.property, d.target);
  }

  lemma SomeDenial(graph: set<Triple>, consumed: set<Triple>, known: set<Node>, n: Node, data: bool)
    requires AssertsNegationStep(graph, consumed, known, Typing(n), data).Ok?
    requires AssertsNegationStep(graph, consumed, known, Typing(n), data).value.Some?
    ensures var step := AssertsNegationStep(graph, consumed, known, Typing(n), data);
      exists d: Denial :: d.data == data && d.node == n && Makes(step, Denied(d))
  {
    hide TYPE, Owl, Value, HasAny, FieldTriples;
    var a, b, c := Value(graph, n, SOURCE_INDIVIDUAL), Value(graph, n, ASSERTION_PROPERTY), Value(graph, n, Target(data));
    assert a.Some? && b.Some? && c.Some?;
    var d := Denial(data, n, a.value, b.value, c.value);
    assert Makes(AssertsNegationStep(graph, consumed, known, Typing(n), data), Denied(d));
  }

  // A denial claims the type of its own node and of no other.
  lemma ClaimsOwnType(d: Denial, t: Triple)
    requires t.p == TYPE
    ensures t in Denied(d).AsTriples() <==> t == Typing(d.node)
  {
    hide TYPE, Owl, Foreign, FieldTriples;
    NegationIsOther(SOURCE_INDIVIDUAL);
    NegationIsOther(ASSERTION_PROPERTY);
    NegationIsOther(TARGET_INDIVIDUAL);
    NegationIsOther(TARGET_VALUE);
    FieldsApart(d.node, Denied(d).values, t);
  }

  lemma FieldsApart(n: Node, values: seq<Field>, t: Triple)
    requires forall v :: v in values ==> v.property != t.p
    ensures t !in FieldTriples(n, values)
  {
  }

  lemma HasTarget(graph: set<Triple>, d: Denial)
    requires Says(graph, d)
    ensures Targets(graph, d.node, Target(d.data))
  {
    hide TYPE, Owl;
    assert d.target in Objects(graph, d.node, Target(d.data));
  }

  ghost predicate Grows(graph: set<Triple>, data: bool, before: set<Triple>, after: set<Triple>) {
    before <= after && forall t: Triple :: t.p == TYPE && t in after && t !in before ==> Targets(graph, t.s, Target(data))
  }

  lemma OneDenied(graph: set<Triple>, known: set<Node>, data: bool, claims: seq<Proposal>, n: Node)
    requires Typing(n) in graph && ApplyItem(graph, known, NegationPass(data), claims, Stated(Typing(n))).Ok?
    ensures var r := ApplyItem(graph, known, NegationPass(data), claims, Stated(Typing(n))).value;
      && (forall e: Element :: e in ElementsOf(r) <==>
            e in ElementsOf(claims) || MadeFrom(graph, known, data, Claimed(claims), [Typing(n)], e))
      && Grows(graph, data, Claimed(claims), Claimed(r))
      && forall t: Triple :: t.p == TYPE && t != Typing(n) ==> (t in Claimed(r) <==> t in Claimed(claims))
  {
    var step := AssertsNegationStep(graph, Claimed(claims), known, Typing(n), data);
    hide TYPE, Owl, AssertsNegationStep, Claimed, ElementsOf, Says, Denied, Targets, Element.AsTriples;
    forall d: Denial | d.data == data && d.node == n
      ensures Makes(step, Denied(d)) <==> Made(graph, known, data, Claimed(claims), d)
    {
      MadeIff(graph, Claimed(claims), known, d);
    }
    if step.value.Some? {
      SomeDenial(graph, Claimed(claims), known, n, data);
      var d: Denial :| d.data == data && d.node == n && Makes(step, Denied(d));
      ClaimedPlus(claims, Whole(Denied(d)));
      HasTarget(graph, d);
      forall t: Triple | t.p == TYPE ensures t in Denied(d).AsTriples() <==> t == Typing(n) {
        ClaimsOwnType(d, t);
      }
    }
  }

  lemma {:induction false} AllDenied(graph: set<Triple>, known: set<Node>, data: bool, claims: seq<Proposal>,
      triples: seq<Triple>)
    requires forall i, j :: 0 <= i < j < |triples| ==> triples[i] != triples[j]
    requires forall t :: t in triples ==> t in graph && t == Typing(t.s)
    requires ApplyItems(graph, known, NegationPass(data), claims, AllStated(triples)).Ok?
    ensures var r := ApplyItems(graph, known, NegationPass(data), claims, AllStated(triples)).value;
      && (forall e: Element :: e in ElementsOf(r) <==>
            e in ElementsOf(claims) || MadeFrom(graph, known, data, Claimed(claims), triples, e))
      && Grows(graph, data, Claimed(claims), Claimed(r))
    decreases |triples|
  {
    hide TYPE, Owl, Claimed, ElementsOf, ApplyItem, Says, Denied, Targets;
    if triples != [] {
      var t, rest := triples[0], triples[1..];
      assert AllStated(triples)[0] == Stated(t) && AllStated(triples)[1..] == AllStated(rest);
      assert triples == [t] + rest && t !in rest && t == Typing(t.s);
      OneDenied(graph, known, data, claims, t.s);
      var r := ApplyItem(graph, known, NegationPass(data), claims, Stated(t)).value;
      AllDenied(graph, known, data, r, rest);
      forall e: Element ensures MadeFrom(graph, known, data, Claimed(claims), triples, e) <==>
          MadeFrom(graph, known, data, Claimed(claims), [t], e) || MadeFrom(graph, known, data, Claimed(r), rest, e) {
        MadeFromBoth(graph, known, data, Claimed(claims), Claimed(r), t, rest, e);
      }
    }
  }

  lemma MadeFromBoth(graph: set<Triple>, known: set<Node>, data: bool, before: set<Triple>, after: set<Triple>,
      t: Triple, rest: seq<Triple>, e: Element)
    requires t !in rest && forall u: Triple :: u.p == TYPE && u != t ==> (u in after <==> u in before)
    ensures MadeFrom(graph, known, data, before, [t] + rest, e) <==>
      MadeFrom(graph, known, data, before, [t], e) || MadeFrom(graph, known, data, after, rest, e)
  {
    hide TYPE, Owl, Says, Denied;
    if d: Denial :| Typing(d.node) in [t] + rest && Made(graph, known, data, before, d) && e == Denied(d) {
      if Typing(d.node) != t {
        assert Made(graph, known, data, after, d);
      }
    }
    if d: Denial :| Typing(d.node) in rest && Made(graph, known, data, after, d) && e == Denied(d) {
      assert Made(graph, known, data, before, d);
    }
  }

  lemma PassDenied(graph: set<Triple>, claims: seq<Proposal>, data: bool)
    requires ApplyPass(graph, claims, NegationPass(data)).Ok?
    ensures var r := ApplyPass(graph, claims, NegationPass(data)).value;
      var known := Known(NegationPass(data), ElementsOf(claims));
      && (forall e: Element :: e in ElementsOf(r) <==>
            e in ElementsOf(claims) || exists d: Denial :: Made(graph, known, data, Claimed(claims), d) && e == Denied(d))
      && Grows(graph, data, Claimed(claims), Claimed(r))
  {
    TriplesOrdered();
    var found := Candidates(graph, Claimed(claims), WithType(NEGATIVE_ASSERTION));
    var triples := Sorted(found, TripleLe);
    assert forall t :: t in triples <==> t in found;
    assert forall t :: t in found <==> t in graph && t == Typing(t.s);
    hide TYPE, Owl, Claimed, ElementsOf, Known, Denied, Targets;
    AllDenied(graph, Known(NegationPass(data), ElementsOf(claims)), data, claims, triples);
  }

  // The five passes

  // The triples of what is neither an assertion nor a negative one.
  ghost function Settled(claims: seq<Proposal>): set<Triple> {
    set i, t | 0 <= i < |claims| && !IsAssertion(claims[i].element.kind) && !IsNegation(claims[i].element.kind) &&
      t in claims[i].triples :: t
  }

  lemma SettledSame(a: seq<Proposal>, b: seq<Proposal>)
    requires AddsAssertions(a, b) || AddsNegations(a, b)
    ensures Settled(b) == Settled(a)
  {
    hide IsAssertion, IsNegation;
    forall i | 0 <= i < |a| ensures b[i] == a[i] {}
    forall t | t in Settled(a) ensures t in Settled(b) {
      var i :| 0 <= i < |a| && !IsAssertion(a[i].element.kind) && !IsNegation(a[i].element.kind) && t in a[i].triples;
      assert b[i] == a[i];
    }
  }

  lemma EarlyIsSettled(claims: seq<Proposal>)
    requires AllUngated(claims)
    ensures Settled(claims) == Claimed(claims)
    ensures forall e :: e in ElementsOf(claims) ==> !IsNegation(e.kind)
  {
    hide Ungated, IsAssertion, IsNegation;
    forall i | 0 <= i < |claims| ensures !IsAssertion(claims[i].element.kind) && !IsNegation(claims[i].element.kind) {
      UngatedIsNoAssertion(claims[i].element.kind);
    }
  }

  lemma AssertionsAreNoNegations(a: seq<Proposal>, b: seq<Proposal>, e: Element)
    requires AddsAssertions(a, b) && IsNegation(e.kind)
    ensures e in ElementsOf(b) <==> e in ElementsOf(a)
  {
    var before, after := ElementsOf(a), ElementsOf(b);
    if e in before {
      var i :| 0 <= i < |before| && before[i] == e;
      assert after[i] == e;
    }
    if e in after {
      var i :| 0 <= i < |after| && after[i] == e;
      assert i < |a| ==> before[i] == e;
    }
  }

  ghost predicate Granted(graph: set<Triple>, claimed: set<Triple>, elements: seq<Element>, d: Denial) {
    && Says(graph, d) && d.property in (if d.data then KnownDataProperties(elements) else KnownObjectProperties(elements))
    && Typing(d.node) !in claimed && Typing(d.node) !in Assertions.Taken(graph, elements)
  }

  lemma KnownToNegation(elements: seq<Element>)
    ensures Known(NegationPass(false), elements) == KnownObjectProperties(elements)
    ensures Known(NegationPass(true), elements) == KnownDataProperties(elements)
  {
    hide NEGATIVE_ASSERTION;
  }

  // The first pass of negations decides about those of object properties.
  lemma ObjectGranted(graph: set<Triple>, claimed: set<Triple>, c2: set<Triple>, classes: set<Node>,
      elements: seq<Element>, d: Denial)
    requires classes == KnownClassExpressions(elements)
    requires c2 == claimed + GatedIn(graph, AssertsClass, classes) +
      GatedIn(graph, AssertsProperty(false), KnownObjectProperties(elements))
    ensures !d.data ==>
      (Made(graph, KnownObjectProperties(elements), false, c2, d) <==> Granted(graph, claimed, elements, d))
    ensures Says(graph, d) ==> (Typing(d.node) in c2 <==> Typing(d.node) in claimed || Typing(d.node) in Assertions.Taken(graph, elements))
  {
    assert IsResource(NEGATIVE_ASSERTION);
    hide TYPE, Owl, Targets, Denies, KnownClassExpressions, KnownObjectProperties, KnownDataProperties;
  }

  lemma DataGranted(graph: set<Triple>, claimed: set<Triple>, c2: set<Triple>, c3: set<Triple>, c4: set<Triple>,
      known: set<Node>, elements: seq<Element>, d: Denial)
    requires Grows(graph, false, c2, c3) && c4 == c3 + GatedIn(graph, AssertsProperty(true), known)
    requires Says(graph, d) ==>
      (Typing(d.node) in c2 <==> Typing(d.node) in claimed || Typing(d.node) in Assertions.Taken(graph, elements))
    ensures d.data ==>
      (Made(graph, KnownDataProperties(elements), true, c4, d) <==> Granted(graph, claimed, elements, d))
  {
    assert IsResource(NEGATIVE_ASSERTION);
    hide TYPE, Owl, Denies, KnownClassExpressions, KnownObjectProperties, KnownDataProperties, Assertions.Taken;
    hide Targets;
  }

  lemma DeniedTogether(graph: set<Triple>, c0: seq<Proposal>, c1: seq<Proposal>, c2: seq<Proposal>,
      c3: seq<Proposal>, c4: seq<Proposal>, c5: seq<Proposal>, e: Element)
    requires IsNegation(e.kind) && e !in ElementsOf(c0)
    requires AddsAssertions(c0, c1) && AddsAssertions(c1, c2) && AddsNegations(c2, c3)
    requires AddsAssertions(c3, c4) && AddsNegations(c4, c5)
    requires Claimed(c1) == Claimed(c0) + GatedIn(graph, AssertsClass, KnownClassExpressions(ElementsOf(c0)))
    requires Claimed(c2) == Claimed(c1) + GatedIn(graph, AssertsProperty(false), KnownObjectProperties(ElementsOf(c1)))
    requires Claimed(c4) == Claimed(c3) + GatedIn(graph, AssertsProperty(true), KnownDataProperties(ElementsOf(c3)))
    requires Grows(graph, false, Claimed(c2), Claimed(c3))
    requires e in ElementsOf(c3) <==> e in ElementsOf(c2) || exists d: Denial ::
      Made(graph, KnownObjectProperties(ElementsOf(c2)), false, Claimed(c2), d) && e == Denied(d)
    requires e in ElementsOf(c5) <==> e in ElementsOf(c4) || exists d: Denial ::
      Made(graph, KnownDataProperties(ElementsOf(c4)), true, Claimed(c4), d) && e == Denied(d)
    ensures e in ElementsOf(c5) <==>
      exists d: Denial :: Granted(graph, Claimed(c0), ElementsOf(c5), d) && e == Denied(d)
  {
    hide Claimed, ElementsOf, KnownClassExpressions, KnownObjectProperties, KnownDataProperties, Denied, Says;
    hide AddsAssertions, AddsNegations, IsNegation, Assertions.Taken, GatedIn, Grows, Granted;
    KnownSame(c0, c1);
    KnownSame(c1, c2);
    KnownSame(c2, c3);
    KnownSame(c3, c4);
    KnownSame(c4, c5);
    AssertionsAreNoNegations(c0, c1, e);
    AssertionsAreNoNegations(c1, c2, e);
    AssertionsAreNoNegations(c3, c4, e);
    var elements := ElementsOf(c5);
    forall d: Denial
      ensures Granted(graph, Claimed(c0), elements, d) <==>
        || Made(graph, KnownObjectProperties(elements), false, Claimed(c2), d)
        || Made(graph, KnownDataProperties(elements), true, Claimed(c4), d)
    {
      ObjectGranted(graph, Claimed(c0), Claimed(c2), KnownClassExpressions(elements), elements, d);
      DataGranted(graph, Claimed(c0), Claimed(c2), Claimed(c3), Claimed(c4), KnownDataProperties(elements), elements, d);
    }
  }

  lemma NegationsRun(graph: set<Triple>, claims: seq<Proposal>, e: Element)
    requires ApplyPasses(graph, claims, AssertionPasses()).Ok?
    requires IsNegation(e.kind) && e !in ElementsOf(claims)
    ensures var last := ApplyPasses(graph, claims, AssertionPasses()).value;
      && Settled(last) == Settled(claims)
      && (e in ElementsOf(last) <==>
            exists d: Denial :: Granted(graph, Claimed(claims), ElementsOf(last), d) && e == Denied(d))
  {
    var classes, objects := ByStatement(AnyType, AssertsClass), ByStatement(Unclaimed, AssertsProperty(false));
    var data, negative, others := ByStatement(Unclaimed, AssertsProperty(true)), NegationPass(false), NegationPass(true);
    hide ApplyPass, Claimed, Settled, AddsAssertions, AddsNegations, NEGATIVE_ASSERTION, AssertionPasses, Grows, Made;
    hide Granted, Denied, ElementsOf, IsNegation;
    FivePasses(graph, claims);
    AfterOne(graph, claims, classes, [objects] + ([negative] + ([data] + [others])));
    var c1 := ApplyPass(graph, claims, classes).value;
    AfterOne(graph, c1, objects, [negative] + ([data] + [others]));
    var c2 := ApplyPass(graph, c1, objects).value;
    AfterOne(graph, c2, negative, [data] + [others]);
    var c3 := ApplyPass(graph, c2, negative).value;
    AfterOne(graph, c3, data, [others]);
    var c4 := ApplyPass(graph, c3, data).value;
    AfterOne(graph, c4, others, []);
    var c5 := ApplyPass(graph, c4, others).value;
    hide ApplyPasses;
    PassAsserted(graph, claims, classes);
    PassAsserted(graph, c1, objects);
    PassNegated(graph, c2, negative);
    PassAsserted(graph, c3, data);
    PassNegated(graph, c4, others);
    SettledSame(claims, c1);
    SettledSame(c1, c2);
    SettledSame(c2, c3);
    SettledSame(c3, c4);
    SettledSame(c4, c5);
    PassDenied(graph, c2, false);
    PassDenied(graph, c4, true);
    KnownToNegation(ElementsOf(c2));
    KnownToNegation(ElementsOf(c4));
    DeniedTogether(graph, claims, c1, c2, c3, c4, c5, e);
  }

  // The theorem

  // The graph says so of a node whose type triple is part of nothing else, and
  // the property stands at such a place in another element.
  ghost predicate Negates(graph: set<Triple>, claims: seq<Proposal>, d: Denial) {
    var elements := ElementsOf(claims);
    && Says(graph, d) && (if d.data then DataThere(graph, elements, d.property) else ObjectThere(graph, elements, d.property))
    && Typing(d.node) !in Settled(claims) && !Admitted(graph, elements, Typing(d.node))
  }

  // For every graph: when the passes end without an error, these negative
  // assertions are among the elements, and no others.
  lemma NegatedIff(graph: set<Triple>, claims: seq<Proposal>, e: Element)
    requires WellFormed(graph) && ApplyPasses(graph, [], AllPasses()) == Ok(claims) && IsNegation(e.kind)
    ensures e in ElementsOf(claims) <==> exists d: Denial :: Negates(graph, claims, d) && e == Denied(d)
  {
    hide AllPasses, EarlyPasses, AssertionPasses, Claimed, Settled, Assertions.Taken, Admitted, AllProper, Sided;
    hide Typical, WellFormed, Denied, Says, IsNegation, ApplyPasses, DataThere, ObjectThere, KnownObjectProperties;
    hide KnownDataProperties, ElementsOf;
    PhasesInOrder();
    PassesConcat(graph, [], EarlyPasses(), AssertionPasses());
    var early := ApplyPasses(graph, [], EarlyPasses()).value;
    EarlyIsRich(graph);
    EarlyIsSettled(early);
    NegationsRun(graph, early, e);
    TableIsSided();
    TableIsTypical();
    ProperClaims(graph, AllPasses());
    var elements := ElementsOf(claims);
    forall d: Denial ensures Granted(graph, Claimed(early), elements, d) <==> Negates(graph, claims, d) {
      GrantedIsNegates(graph, claims, Claimed(early), d);
    }
  }

  lemma GrantedIsNegates(graph: set<Triple>, claims: seq<Proposal>, claimed: set<Triple>, d: Denial)
    requires WellFormed(graph) && AllProper(graph, ElementsOf(claims)) && claimed == Settled(claims)
    ensures Granted(graph, claimed, ElementsOf(claims), d) <==> Negates(graph, claims, d)
  {
    hide WellFormed, AllProper, ElementsOf, Settled, Targets, Denies, TYPE, Owl, Assertions.Taken, Admitted;
    hide DataThere, ObjectThere, KnownObjectProperties, KnownDataProperties;
    if Says(graph, d) {
      TakenIsAdmitted(graph, ElementsOf(claims), Typing(d.node));
      KnownIsThere(graph, ElementsOf(claims), d.property);
    }
  }
}
