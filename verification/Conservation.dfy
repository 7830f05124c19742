// Lifting is a partition: the elements print exactly the input graph.
module Conservation {
  import opened Rdf
  import opened RdfLists
  import opened Ordering
  import opened Kinds
  import opened Elements
  import opened Passes
  import opened Claims
  import opened Lifting

  // What all passes have in common

  // A pass that leaves n-ary differences alone.
  ghost predicate LeavesDifferences(pass: Pass) {
    match pass
    case BySubject(p, rule) =>
      PlainProperty(p) && (rule.OwnsList? ==> rule.declared != Some(ALL_DIFFERENT)) && (rule.HasOperand? ==> rule.rdfType != ALL_DIFFERENT)
    case ByStatement(source, claim) =>
      match claim
      case States(_, _, _) => source.WithProperty? && PlainProperty(source.property)
      case Declares(_, _) => source.WithType? && source.rdfType != ALL_DIFFERENT
      case OwnsMembers(_, _, legacy) => source.WithType? && source.rdfType != ALL_DIFFERENT && !legacy
      case _ => false
  }

  // A pass that may run once the n-ary differences have been claimed.
  ghost predicate Late(pass: Pass) {
    || LeavesDifferences(pass)
    || pass == ByStatement(AnyType, AssertsClass)
    || (pass.ByStatement? && pass.source == Unclaimed && pass.claim.AssertsProperty?)
    || (pass.ByStatement? && pass.source == WithType(NEGATIVE_ASSERTION) && pass.claim.AssertsNegation?)
  }

  // The item is one the pass selects, given what was claimed when it began.
  ghost predicate Fits(graph: set<Triple>, begun: set<Triple>, pass: Pass, item: Item) {
    match (pass, item)
    case (BySubject(p, _), Named(s)) => s in SubjectsOf(graph, p)
    case (ByStatement(source, _), Stated(t)) => t in Candidates(graph, begun, source)
    case _ => false
  }

  lemma ItemsFit(graph: set<Triple>, begun: set<Triple>, pass: Pass)
    ensures forall i :: 0 <= i < |Items(graph, begun, pass)| ==> Fits(graph, begun, pass, Items(graph, begun, pass)[i])
  {
    NodesOrdered();
    TriplesOrdered();
    match pass {
      case BySubject(p, _) =>
        var nodes := Sorted(SubjectsOf(graph, p), NodeLe);
        forall i | 0 <= i < |nodes| ensures nodes[i] in SubjectsOf(graph, p) { assert nodes[i] in nodes; }
      case ByStatement(source, _) =>
        var triples := Sorted(Candidates(graph, begun, source), TripleLe);
        forall i | 0 <= i < |triples| ensures triples[i] in Candidates(graph, begun, source) { assert triples[i] in triples; }
    }
  }

  lemma SubjectStepExact(graph: set<Triple>, consumed: set<Triple>, s: Node, p: Node, rule: SubjectRule,
      claim: Proposal)
    requires LeavesDifferences(BySubject(p, rule)) && SubjectStep(graph, consumed, s, p, rule) == Ok(Some(claim))
    ensures Exact(graph, claim) && Ordinary(graph, claim.triples)
  {
    hide Exact, Ordinary, OwnsListStep, HasOperandStep, HasFacetsStep, RestrictsStep, PlainProperty;
    match rule {
      case OwnsList(_, _, _, _) => OwnsListExact(graph, consumed, s, p, rule, claim);
      case HasOperand(_, _) => HasOperandExact(graph, s, p, rule, claim);
      case HasFacets => HasFacetsExact(graph, consumed, s, claim);
      case Restricts(form) => RestrictsExact(graph, consumed, s, p, form, claim);
    }
  }

  lemma OneTripleOrdinary(graph: set<Triple>, t: Triple)
    requires PlainProperty(t.p) || (t.p == TYPE && t.o != ALL_DIFFERENT)
    ensures Ordinary(graph, {t}) && !Legacy(graph, t)
  {
    if PlainProperty(t.p) {
      PropertyOrdinary(graph, t);
    } else {
      TypeOrdinary(graph, t);
    }
  }

  lemma StatementStepExact(graph: set<Triple>, begun: set<Triple>, consumed: set<Triple>, known: set<Node>,
      pass: Pass, t: Triple, claim: Proposal)
    requires LeavesDifferences(pass) && pass.ByStatement? && Fits(graph, begun, pass, Stated(t))
    requires StatementStep(graph, consumed, known, t, pass.claim) == Ok(Some(claim))
    ensures Exact(graph, claim) && Ordinary(graph, claim.triples)
  {
    hide Exact, Ordinary, TYPE, ALL_DIFFERENT, PlainProperty, Legacy, ChosenKind, OwnsMembersStep;
    if pass.claim.OwnsMembers? {
      OwnsMembersExact(graph, consumed, t, pass.claim, claim);
    } else {
      OneTripleOrdinary(graph, t);
      assert claim.triples == {t} && claim.element.AsTriples() == {t};
      SingleExact(graph, claim.element, t);
    }
  }

  lemma AssertionStepExact(graph: set<Triple>, begun: set<Triple>, consumed: set<Triple>, known: set<Node>,
      pass: Pass, t: Triple, claim: Proposal)
    requires Late(pass) && !LeavesDifferences(pass) && pass.ByStatement? && Fits(graph, begun, pass, Stated(t))
    requires forall u :: u in graph && Legacy(graph, u) ==> u in begun
    requires StatementStep(graph, consumed, known, t, pass.claim) == Ok(Some(claim))
    ensures Exact(graph, claim)
  {
    hide Exact, TYPE, DISTINCT_MEMBERS, ALL_DIFFERENT, NEGATIVE_ASSERTION, LeavesDifferences;
    if pass.claim.AssertsNegation? {
      NegationExact(graph, consumed, known, t, pass.claim.data, claim);
    } else {
      MembersPlain();
      assert !Legacy(graph, t);
      assert claim.triples == {t} && claim.element.AsTriples() == {t};
      SingleExact(graph, claim.element, t);
    }
  }

  lemma NegationExact(graph: set<Triple>, consumed: set<Triple>, known: set<Node>, t: Triple, data: bool,
      claim: Proposal)
    requires t in graph && t.p == TYPE && t.o == NEGATIVE_ASSERTION
    requires AssertsNegationStep(graph, consumed, known, t, data) == Ok(Some(claim))
    ensures Exact(graph, claim)
  {
    hide TYPE, ALL_DIFFERENT, NEGATIVE_ASSERTION, SOURCE_INDIVIDUAL, ASSERTION_PROPERTY, TARGET_INDIVIDUAL;
    hide TARGET_VALUE, PlainProperty, Exact, HasAny;
    TypesDistinct();
    OwnPropertiesPlain();
    var target := if data then TARGET_VALUE else TARGET_INDIVIDUAL;
    ValueInGraph(graph, t.s, SOURCE_INDIVIDUAL);
    ValueInGraph(graph, t.s, ASSERTION_PROPERTY);
    ValueInGraph(graph, t.s, target);
    hide Value;
    var source, property, o := Value(graph, t.s, SOURCE_INDIVIDUAL).value, Value(graph, t.s, ASSERTION_PROPERTY).value, Value(graph, t.s, target).value;
    DescribedExact(graph, if data then Frame(NegativeDataPropertyAssertion) else Frame(NegativeObjectPropertyAssertion), t.s, t.o,
      [Field(SOURCE_INDIVIDUAL, source), Field(ASSERTION_PROPERTY, property), Field(target, o)]);
  }

  // Claims that add up

  ghost predicate Sound(graph: set<Triple>, claims: seq<Proposal>) {
    && (forall i :: 0 <= i < |claims| ==> Exact(graph, claims[i]))
    && forall i, j :: 0 <= i < j < |claims| ==> claims[i].triples !! claims[j].triples
  }

  // Everything that has to be renamed has been claimed.
  ghost predicate Settled(graph: set<Triple>, consumed: set<Triple>) {
    forall t :: t in graph && Legacy(graph, t) ==> t in consumed
  }

  lemma SoundPlus(graph: set<Triple>, claims: seq<Proposal>, claim: Proposal)
    requires Sound(graph, claims) && Exact(graph, claim) && claim.triples !! Claimed(claims)
    ensures Sound(graph, claims + [claim])
    ensures Claimed(claims + [claim]) == Claimed(claims) + claim.triples
  {
    hide Exact;
    ClaimedPlus(claims, claim);
    var more := claims + [claim];
    forall i | 0 <= i < |claims| ensures claims[i].triples !! claim.triples {
      forall t | t in claims[i].triples ensures t in Claimed(claims) {}
    }
    forall i, j | 0 <= i < j < |more| ensures more[i].triples !! more[j].triples {
      if j < |claims| {
        assert more[j] == claims[j];
      }
      assert more[i] == claims[i];
    }
  }

  // One step of a pass.
  lemma StepSound(graph: set<Triple>, begun: set<Triple>, known: set<Node>, pass: Pass, claims: seq<Proposal>,
      item: Item, claim: Proposal)
    requires Late(pass) && Fits(graph, begun, pass, item) && (LeavesDifferences(pass) || Settled(graph, begun))
    requires Step(graph, Claimed(claims), known, pass, item) == Ok(Some(claim))
    ensures Exact(graph, claim)
    ensures LeavesDifferences(pass) ==> Ordinary(graph, claim.triples)
  {
    hide Exact, Ordinary, SubjectStep, StatementStep, Legacy;
    if pass.BySubject? {
      SubjectStepExact(graph, Claimed(claims), item.node, pass.property, pass.rule, claim);
    } else if LeavesDifferences(pass) {
      StatementStepExact(graph, begun, Claimed(claims), known, pass, item.triple, claim);
    } else {
      AssertionStepExact(graph, begun, Claimed(claims), known, pass, item.triple, claim);
    }
  }

  lemma {:induction false} ItemsSound(graph: set<Triple>, begun: set<Triple>, known: set<Node>, pass: Pass,
      claims: seq<Proposal>, items: seq<Item>)
    requires Late(pass) && (LeavesDifferences(pass) || Settled(graph, begun)) && Sound(graph, claims)
    requires forall i :: 0 <= i < |items| ==> Fits(graph, begun, pass, items[i])
    requires ApplyItems(graph, known, pass, claims, items).Ok?
    ensures var more := ApplyItems(graph, known, pass, claims, items).value;
      && Sound(graph, more) && Claimed(claims) <= Claimed(more)
      && (LeavesDifferences(pass) && Ordinary(graph, Claimed(claims)) ==> Ordinary(graph, Claimed(more)))
    decreases |items|
  {
    hide Step, Late, LeavesDifferences, Settled, Fits, Sound, Exact, Ordinary, Claimed;
    if items != [] {
      var next := ApplyItem(graph, known, pass, claims, items[0]).value;
      if next != claims {
        var claim := Step(graph, Claimed(claims), known, pass, items[0]).value.value;
        StepSound(graph, begun, known, pass, claims, items[0], claim);
        SoundPlus(graph, claims, claim);
        if LeavesDifferences(pass) && Ordinary(graph, Claimed(claims)) {
          OrdinaryPlus(graph, Claimed(claims), claim.triples);
        }
      }
      assert forall i :: 0 <= i < |items[1..]| ==> items[1..][i] == items[i + 1];
      ItemsSound(graph, begun, known, pass, next, items[1..]);
    }
  }

  lemma PassSound(graph: set<Triple>, claims: seq<Proposal>, pass: Pass)
    requires Late(pass) && (LeavesDifferences(pass) || Settled(graph, Claimed(claims))) && Sound(graph, claims)
    requires ApplyPass(graph, claims, pass).Ok?
    ensures var more := ApplyPass(graph, claims, pass).value;
      && Sound(graph, more) && Claimed(claims) <= Claimed(more)
      && (LeavesDifferences(pass) && Ordinary(graph, Claimed(claims)) ==> Ordinary(graph, Claimed(more)))
  {
    ItemsFit(graph, Claimed(claims), pass);
    ItemsSound(graph, Claimed(claims), Known(pass, ElementsOf(claims)), pass, claims, Items(graph, Claimed(claims),
      pass));
  }

  // The n-ary differences

  lemma {:induction false} DifferencesSound(graph: set<Triple>, known: set<Node>, claims: seq<Proposal>,
      items: seq<Item>)
    requires Sound(graph, claims)
    requires forall i :: 0 <= i < |items| ==> items[i].Stated? && Fits(graph, {}, Differences(), items[i])
    requires forall i, j :: 0 <= i < j < |items| ==> items[i] != items[j]
    requires forall i :: 0 <= i < |items| ==> items[i].triple in Claimed(claims) ==> !HasAny(graph, items[i].triple.s, DISTINCT_MEMBERS)
    requires ApplyItems(graph, known, Differences(), claims, items).Ok?
    ensures var more := ApplyItems(graph, known, Differences(), claims, items).value;
      && Sound(graph, more) && Claimed(claims) <= Claimed(more)
      && (forall i, t :: 0 <= i < |items| && t in graph && t.s == items[i].triple.s && Legacy(graph, t) ==> t in Claimed(more))
      && forall i :: 0 <= i < |items| && HasAny(graph, items[i].triple.s, DISTINCT_MEMBERS) ==> !HasAny(graph, items[i].triple.s, MEMBERS)
    decreases |items|
  {
    hide Sound, Exact, Legacy, Claimed, OwnsMembersStep, TYPE, DISTINCT_MEMBERS, ALL_DIFFERENT;
    if items != [] {
      var t, rule := items[0].triple, Differences().claim;
      var next := ApplyItem(graph, known, Differences(), claims, items[0]).value;
      DifferenceStep(graph, known, claims, t, next);
      forall i | 0 <= i < |items[1..]|
        ensures items[1..][i].triple in Claimed(next) ==> !HasAny(graph, items[1..][i].triple.s, DISTINCT_MEMBERS)
      {
        assert items[1..][i] == items[i + 1] && items[i + 1] != items[0];
      }
      assert forall i :: 0 <= i < |items[1..]| ==> items[1..][i] == items[i + 1];
      DifferencesSound(graph, known, next, items[1..]);
    }
  }

  lemma DifferenceStep(graph: set<Triple>, known: set<Node>, claims: seq<Proposal>, t: Triple, next: seq<Proposal>)
    requires Sound(graph, claims) && t in graph && t.p == TYPE && t.o == ALL_DIFFERENT
    requires t in Claimed(claims) ==> !HasAny(graph, t.s, DISTINCT_MEMBERS)
    requires ApplyItem(graph, known, Differences(), claims, Stated(t)) == Ok(next)
    ensures Sound(graph, next) && Claimed(claims) <= Claimed(next)
    ensures forall u :: u in graph && u.s == t.s && Legacy(graph, u) ==> u in Claimed(next)
    ensures forall u :: u in Claimed(next) && u.p == TYPE && u != t ==> u in Claimed(claims)
    ensures HasAny(graph, t.s, DISTINCT_MEMBERS) ==> !HasAny(graph, t.s, MEMBERS)
  {
    hide Sound, Exact, Claimed, TYPE, DISTINCT_MEMBERS, ALL_DIFFERENT;
    if t in Claimed(claims) {
      assert next == claims by { hide HasAny; }
      NothingLegacy(graph, t.s);
    } else {
      var rule := Differences().claim;
      DifferenceClaims(graph, known, claims, t, next);
      var claim := OwnsMembersStep(graph, Claimed(claims), t, rule).value.value;
      OwnsMembersExact(graph, Claimed(claims), t, rule, claim);
      SoundPlus(graph, claims, claim);
    }
  }

  lemma NothingLegacy(graph: set<Triple>, s: Node)
    requires !HasAny(graph, s, DISTINCT_MEMBERS)
    ensures forall u :: u in graph && u.s == s ==> !Legacy(graph, u)
  {
    hide DISTINCT_MEMBERS;
    assert forall u :: u in graph && u.s == s && u.p == DISTINCT_MEMBERS ==> u.o in Objects(graph, s, DISTINCT_MEMBERS);
  }

  lemma DifferenceClaims(graph: set<Triple>, known: set<Node>, claims: seq<Proposal>, t: Triple, next: seq<Proposal>)
    requires t !in Claimed(claims) && ApplyItem(graph, known, Differences(), claims, Stated(t)) == Ok(next)
    ensures var step := OwnsMembersStep(graph, Claimed(claims), t, Differences().claim);
      step.Ok? && step.value.Some? && step.value.value.triples !! Claimed(claims) && next == claims + [step.value.value]
    ensures HasAny(graph, t.s, DISTINCT_MEMBERS) ==> !HasAny(graph, t.s, MEMBERS)
  {
    hide Claimed, ListAt, HasAny;
  }

  // The table

  lemma ExpressionsPlain()
    ensures forall pass :: pass in ExpressionPasses() ==> LeavesDifferences(pass)
  {
    hide Owl, Rdfs, TYPE, MeaningOf;
    Meanings();
  }

  lemma RestrictionsPlain()
    ensures forall pass :: pass in RestrictionPasses() ==> LeavesDifferences(pass)
  {
    hide Owl, Rdfs, TYPE, MeaningOf;
    Meanings();
  }

  lemma ListAxiomsPlain()
    ensures forall pass :: pass in ListAxiomPasses() ==> LeavesDifferences(pass)
  {
    hide Owl, Rdfs, TYPE, MeaningOf;
    Meanings();
  }

  lemma AxiomsPlain()
    ensures forall pass :: pass in AxiomPasses() ==> LeavesDifferences(pass)
  {
    hide Owl, Rdfs, TYPE, MeaningOf;
    Meanings();
  }

  lemma CharacteristicsPlain()
    ensures forall pass :: pass in CharacteristicPasses() ==> LeavesDifferences(pass)
  {
    hide Owl, Rdfs, TYPE, MeaningOf;
    Meanings();
  }

  lemma DeclarationsPlain()
    ensures forall pass :: pass in DeclarationPasses() ==> LeavesDifferences(pass)
  {
    hide Owl, Rdfs, TYPE, MeaningOf;
    Meanings();
  }

  // All passes

  lemma {:induction false} PassesSound(graph: set<Triple>, claims: seq<Proposal>, passes: seq<Pass>)
    requires Sound(graph, claims) && forall pass :: pass in passes ==> Late(pass)
    requires Settled(graph, Claimed(claims)) || forall pass :: pass in passes ==> LeavesDifferences(pass)
    requires ApplyPasses(graph, claims, passes).Ok?
    ensures var more := ApplyPasses(graph, claims, passes).value;
      && Sound(graph, more) && Claimed(claims) <= Claimed(more)
      && ((forall pass :: pass in passes ==> LeavesDifferences(pass)) && Ordinary(graph, Claimed(claims)) ==> Ordinary(graph, Claimed(more)))
    decreases |passes|
  {
    hide Sound, Late, LeavesDifferences, Ordinary, ApplyPass, Claimed;
    if passes != [] {
      assert passes[0] in passes && forall pass :: pass in passes[1..] ==> pass in passes;
      PassSound(graph, claims, passes[0]);
      PassesSound(graph, ApplyPass(graph, claims, passes[0]).value, passes[1..]);
    }
  }

  lemma {:induction false} PassesConcat(graph: set<Triple>, claims: seq<Proposal>, a: seq<Pass>, b: seq<Pass>)
    ensures ApplyPasses(graph, claims, a + b) == match ApplyPasses(graph, claims, a) {
      case Err(e) => Err(e)
      case Ok(more) => ApplyPasses(graph, more, b)
    }
    decreases |a|
  {
    hide ApplyPass;
    if a == [] {
      assert a + b == b;
    } else {
      assert (a + b)[0] == a[0] && (a + b)[1..] == a[1..] + b;
      if ApplyPass(graph, claims, a[0]).Ok? {
        PassesConcat(graph, ApplyPass(graph, claims, a[0]).value, a[1..], b);
      }
    }
  }

  // At no node are both list properties in use.
  ghost predicate NoClash(graph: set<Triple>) {
    forall t :: t in graph && Legacy(graph, t) ==> !HasAny(graph, t.s, MEMBERS)
  }

  // The statements this pass works through are the type triples of n-ary
  // differences, each once, and those that matter are still unclaimed.
  lemma DifferenceItems(graph: set<Triple>, claims: seq<Proposal>)
    requires Ordinary(graph, Claimed(claims))
    ensures var items := Items(graph, Claimed(claims), Differences());
      && (forall i :: 0 <= i < |items| ==> items[i].Stated? && Fits(graph, {}, Differences(), items[i]))
      && (forall i, j :: 0 <= i < j < |items| ==> items[i] != items[j])
      && (forall i :: 0 <= i < |items| ==> items[i].triple in Claimed(claims) ==> !HasAny(graph, items[i].triple.s, DISTINCT_MEMBERS))
      && forall s :: Triple(s, TYPE, ALL_DIFFERENT) in graph ==> Stated(Triple(s, TYPE, ALL_DIFFERENT)) in items
  {
    hide Claimed, HasAny, TYPE, DISTINCT_MEMBERS, ALL_DIFFERENT, TripleLe;
    TriplesOrdered();
    var found := Candidates(graph, Claimed(claims), WithType(ALL_DIFFERENT));
    var triples := Sorted(found, TripleLe);
    var items := AllStated(triples);
    forall i | 0 <= i < |items|
      ensures items[i] == Stated(triples[i]) && triples[i] in found
      ensures items[i].triple in Claimed(claims) ==> !HasAny(graph, items[i].triple.s, DISTINCT_MEMBERS)
    {
      assert triples[i] in triples;
      assert items[i].triple in Claimed(claims) ==> !Awaited(graph, items[i].triple);
    }
    forall s | Triple(s, TYPE, ALL_DIFFERENT) in graph ensures Stated(Triple(s, TYPE, ALL_DIFFERENT)) in items {
      assert Triple(s, TYPE, ALL_DIFFERENT) in found && Triple(s, TYPE, ALL_DIFFERENT) in triples;
      var i :| 0 <= i < |triples| && triples[i] == Triple(s, TYPE, ALL_DIFFERENT);
      assert items[i] == Stated(triples[i]);
    }
  }

  lemma DifferencesPass(graph: set<Triple>, claims: seq<Proposal>)
    requires Sound(graph, claims) && Ordinary(graph, Claimed(claims)) && ApplyPass(graph, claims, Differences()).Ok?
    ensures var more := ApplyPass(graph, claims, Differences()).value;
      Sound(graph, more) && Settled(graph, Claimed(more)) && NoClash(graph)
  {
    hide Sound, Ordinary, Claimed, Items, Fits, TYPE, MEMBERS, DISTINCT_MEMBERS, ALL_DIFFERENT, ApplyItems;
    hide Differences;
    DifferenceItems(graph, claims);
    var items := Items(graph, Claimed(claims), Differences());
    DifferencesSound(graph, Known(Differences(), ElementsOf(claims)), claims, items);
    hide Known, ElementsOf;
    forall t | t in graph && Legacy(graph, t)
      ensures t in Claimed(ApplyPass(graph, claims, Differences()).value) && !HasAny(graph, t.s, MEMBERS)
    {
      var i :| 0 <= i < |items| && items[i] == Stated(Triple(t.s, TYPE, ALL_DIFFERENT));
      assert t.o in Objects(graph, t.s, DISTINCT_MEMBERS);
    }
  }

  lemma AllPassesSound(graph: set<Triple>, claims: seq<Proposal>)
    requires ApplyPasses(graph, [], AllPasses()) == Ok(claims)
    ensures Sound(graph, claims) && NoClash(graph)
  {
    var early := ExpressionPasses() + RestrictionPasses() + ListAxiomPasses();
    var late := AxiomPasses() + CharacteristicPasses() + DeclarationPasses() + AssertionPasses();
    ExpressionsPlain();
    RestrictionsPlain();
    ListAxiomsPlain();
    AxiomsPlain();
    CharacteristicsPlain();
    DeclarationsPlain();
    AssertionsLate();
    hide ExpressionPasses, RestrictionPasses, ListAxiomPasses, Differences, AxiomPasses, CharacteristicPasses;
    hide DeclarationPasses, AssertionPasses, LeavesDifferences, ApplyPass, Sound, Ordinary, Settled, NoClash;
    assert AllPasses() == early + ([Differences()] + late);
    PassesConcat(graph, [], early, [Differences()] + late);
    NothingClaimed(graph);
    PassesSound(graph, [], early);
    var before := ApplyPasses(graph, [], early).value;
    assert ([Differences()] + late)[1..] == late;
    DifferencesPass(graph, before);
    PassesSound(graph, ApplyPass(graph, before, Differences()).value, late);
  }

  lemma AssertionsLate()
    ensures forall pass :: pass in AssertionPasses() ==> Late(pass)
  {
    hide LeavesDifferences;
  }

  lemma NothingClaimed(graph: set<Triple>)
    ensures Sound(graph, []) && Ordinary(graph, Claimed([]))
  {
  }

  // The theorem

  ghost predicate Disjointly(elements: seq<Element>) {
    forall i, j :: 0 <= i < j < |elements| ==> elements[i].AsTriples() !! elements[j].AsTriples()
  }

  function Printed(elements: seq<Element>): set<Triple> {
    set i, t | 0 <= i < |elements| && t in elements[i].AsTriples() :: t
  }

  // Different triples of a graph without a clash print differently.
  lemma RenamedInjective(graph: set<Triple>, t: Triple, u: Triple)
    requires NoClash(graph) && t in graph && u in graph && Renamed(graph, t) == Renamed(graph, u)
    ensures t == u
  {
    hide MEMBERS, DISTINCT_MEMBERS, TYPE, ALL_DIFFERENT;
    assert u.p == MEMBERS ==> u.o in Objects(graph, u.s, MEMBERS);
    assert t.p == MEMBERS ==> t.o in Objects(graph, t.s, MEMBERS);
  }

  lemma ClaimsPrintDisjointly(graph: set<Triple>, claims: seq<Proposal>)
    requires Sound(graph, claims) && NoClash(graph)
    ensures Disjointly(ElementsOf(claims))
    ensures Printed(ElementsOf(claims)) == RenamedAll(graph, Claimed(claims))
  {
    hide NoClash, Renamed, Element.AsTriples;
    var elements := ElementsOf(claims);
    forall i, j | 0 <= i < j < |elements| ensures elements[i].AsTriples() !! elements[j].AsTriples() {
      assert Exact(graph, claims[i]) && Exact(graph, claims[j]);
      forall t, u | t in claims[i].triples && u in claims[j].triples ensures Renamed(graph, t) != Renamed(graph, u) {
        if Renamed(graph, t) == Renamed(graph, u) {
          RenamedInjective(graph, t, u);
        }
      }
    }
    forall t | t in Printed(elements) ensures t in RenamedAll(graph, Claimed(claims)) {
      var i :| 0 <= i < |elements| && t in elements[i].AsTriples();
      assert Exact(graph, claims[i]);
      var u :| u in claims[i].triples && Renamed(graph, u) == t;
      assert u in Claimed(claims);
    }
    forall t | t in RenamedAll(graph, Claimed(claims)) ensures t in Printed(elements) {
      var u :| u in Claimed(claims) && Renamed(graph, u) == t;
      var i :| 0 <= i < |claims| && u in claims[i].triples;
      assert Exact(graph, claims[i]);
      assert t in elements[i].AsTriples();
    }
  }

  // Sorting rearranges a partition.

  lemma PrintedPlus(elements: seq<Element>, e: Element)
    ensures Printed(elements + [e]) == Printed(elements) + e.AsTriples()
  {
    hide Element.AsTriples;
    var more := elements + [e];
    forall t | t in Printed(elements) ensures t in Printed(more) {
      var i :| 0 <= i < |elements| && t in elements[i].AsTriples();
      assert more[i] == elements[i];
    }
    assert more[|elements|] == e;
  }

  lemma DisjointlyPlus(elements: seq<Element>, e: Element)
    ensures Disjointly(elements + [e]) <==> Disjointly(elements) && Printed(elements) !! e.AsTriples()
  {
    hide Element.AsTriples;
    var more := elements + [e];
    assert more[|elements|] == e && forall i :: 0 <= i < |elements| ==> more[i] == elements[i];
    if Disjointly(more) {
      forall i | 0 <= i < |elements| ensures elements[i].AsTriples() !! e.AsTriples() {
        assert more[i].AsTriples() !! more[|elements|].AsTriples();
      }
      forall i, j | 0 <= i < j < |elements| ensures elements[i].AsTriples() !! elements[j].AsTriples() {
        assert more[i].AsTriples() !! more[j].AsTriples();
      }
    }
    if Disjointly(elements) && Printed(elements) !! e.AsTriples() {
      forall i | 0 <= i < |elements| ensures elements[i].AsTriples() !! e.AsTriples() {
        forall t | t in elements[i].AsTriples() ensures t in Printed(elements) {}
      }
    }
  }

  lemma {:induction false} InsertPartition(e: Element, elements: seq<Element>)
    ensures Printed(Insert(e, elements, SortKey)) == Printed(elements) + e.AsTriples()
    ensures Disjointly(elements) && Printed(elements) !! e.AsTriples() ==> Disjointly(Insert(e, elements, SortKey))
    decreases |elements|
  {
    hide Element.AsTriples, Printed, Disjointly, ElementLe;
    NothingPrinted();
    if elements == [] {
      assert [] + [e] == [e];
      PrintedPlus([], e);
      DisjointlyPlus([], e);
    } else {
      var init, last := elements[..|elements| - 1], elements[|elements| - 1];
      assert elements == init + [last];
      PrintedPlus(init, last);
      DisjointlyPlus(init, last);
      if ElementLe(SortKey(last), SortKey(e)) {
        PrintedPlus(elements, e);
        DisjointlyPlus(elements, e);
      } else {
        InsertPartition(e, init);
        PrintedPlus(Insert(e, init, SortKey), last);
        DisjointlyPlus(Insert(e, init, SortKey), last);
      }
    }
  }

  lemma NothingPrinted()
    ensures Printed([]) == {} && Disjointly([])
  {
  }

  lemma {:induction false} SortPartition(elements: seq<Element>)
    ensures Printed(StableSort(elements, SortKey)) == Printed(elements)
    ensures Disjointly(elements) ==> Disjointly(StableSort(elements, SortKey))
  {
    hide Element.AsTriples, Printed, Disjointly;
    if elements != [] {
      var init, last := elements[..|elements| - 1], elements[|elements| - 1];
      assert elements == init + [last];
      SortPartition(init);
      PrintedPlus(init, last);
      DisjointlyPlus(init, last);
      InsertPartition(last, StableSort(init, SortKey));
    }
  }

  // A lifted graph is partitioned among its elements. Together they print
  // every triple exactly once, and only the older list property of an n-ary
  // difference comes back as the newer one.
  lemma LiftIsPartition(graph: set<Triple>)
    requires Lift(graph).Ok?
    ensures Disjointly(Lift(graph).value)
    ensures Printed(Lift(graph).value) == RenamedAll(graph, graph)
  {
    hide ApplyPasses, AllPasses, Sound, NoClash, StableSort, Printed, Disjointly;
    var claims := ApplyPasses(graph, [], AllPasses()).value;
    AllPassesSound(graph, claims);
    assert Claimed(claims) == graph by { ClaimedInGraph(graph, claims); }
    ClaimsPrintDisjointly(graph, claims);
    SortPartition(ElementsOf(claims));
  }

  lemma ClaimedInGraph(graph: set<Triple>, claims: seq<Proposal>)
    requires Sound(graph, claims)
    ensures Claimed(claims) <= graph
  {
    forall i | 0 <= i < |claims| ensures claims[i].triples <= graph {
      assert Exact(graph, claims[i]);
    }
  }

  // A node that uses both list properties is never lifted.
  lemma ClashIsRejected(graph: set<Triple>, t: Triple)
    requires t in graph && Legacy(graph, t) && HasAny(graph, t.s, MEMBERS)
    ensures Lift(graph).Err?
  {
    hide HasAny, Legacy, AllPasses, StableSort;
    if Lift(graph).Ok? {
      AllPassesSound(graph, ApplyPasses(graph, [], AllPasses()).value);
    }
  }
}
