// Every lifted element is what its class says: it prints the triples of the
// class, and its values pass the class's checks.
module Conformance {
  import opened Rdf
  import opened RdfLists
  import opened Ordering
  import opened Kinds
  import opened Elements
  import opened Passes
  import opened Claims
  import opened Lifting
  import opened Conservation

  ghost predicate FillsSlots(fields: seq<Field>, slots: seq<Slot>) {
    && |fields| == |slots|
    && forall i :: 0 <= i < |fields| ==> fields[i].property == slots[i].property && Meets(fields[i].operand, slots[i].test)
  }

  ghost predicate Operate(list: Seq, members: Test, minimum: nat) {
    && list.Valid() && |list.entries| > minimum
    && forall i :: 0 <= i < |list.entries| - 1 ==> Meets(list.entries[i].value.value, members)
  }

  // The element has the shape of its class.
  ghost predicate Conforms(e: Element) {
    match TemplateOf(e.kind)
    case TypeOnly(rdfType) => e.Declaration? && e.rdfType == rdfType
    case OneTriple(only, subject, operand) =>
      e.BinaryAxiom? && (only.Some? ==> e.property == only.value) && Meets(e.name, subject) && Meets(e.operand, operand)
    case Slots(rdfType, slots) => e.Described? && e.rdfType == rdfType && FillsSlots(e.values, slots)
    case Operands(declared, property, members, minimum, slots) =>
      && e.ListOwner? && e.declared == declared && e.property == property
      && Operate(e.list, members, minimum) && FillsSlots(e.values, slots)
    case FacetRows =>
      && e.Faceted? && e.onDatatype.IRI?
      && (forall i :: 0 <= i < |e.facets| ==> IsResource(e.facets[i].anchor) && e.facets[i].facet.IRI?)
      && Unique(FacetCells(e.facets))
  }

  // The entry of the table fits the classes it makes.
  ghost predicate Typical(pass: Pass) {
    match pass
    case BySubject(p, OwnsList(declared, kind, literals, minimum)) =>
      TemplateOf(kind) == Operands(declared, p, if literals then LiteralNode else Resource, minimum, [])
    case BySubject(p, HasOperand(rdfType, kind)) => TemplateOf(kind) == Slots(rdfType, [Slot(p, Resource)])
    case BySubject(_, HasFacets) => true
    case BySubject(p, Restricts(form)) => TypicalForm(p, form)
    case ByStatement(source, Declares(kind, dataKind)) =>
      source.WithType? && TemplateOf(kind) == TypeOnly(source.rdfType) && TemplateOf(dataKind) == TypeOnly(source.rdfType)
    case ByStatement(source, States(choice, subjects, _)) => source.WithProperty? && TypicalChoice(source.property, choice, subjects)
    case ByStatement(source, OwnsMembers(kind, dataKind, _)) =>
      source.WithType? && TemplateOf(kind) == TemplateOf(dataKind) == Operands(Some(source.rdfType), MEMBERS, Resource, 3, [])
    case ByStatement(source, AssertsClass) => source == AnyType
    case ByStatement(source, AssertsProperty(_)) => true
    case ByStatement(source, AssertsNegation(_)) => source == WithType(NEGATIVE_ASSERTION)
  }

  ghost predicate TypicalForm(p: Node, form: Form) {
    match form
    case SelfForm => p == Owl(HasSelf)
    case ValueForm => p == Owl(HasValue)
    case Unqualified(kind, dataKind) =>
      TemplateOf(kind) == TemplateOf(dataKind) == Slots(RESTRICTION, [Slot(ON_PROPERTY, Iri), Slot(p, Count)])
    case Qualified(kind, dataKind) =>
      && TemplateOf(kind) == Slots(RESTRICTION, [Slot(ON_PROPERTY, Iri), Slot(p, Count), Slot(ON_CLASS, Resource)])
      && TemplateOf(dataKind) == Slots(RESTRICTION, [Slot(ON_PROPERTY, Iri), Slot(p, Count), Slot(ON_DATA_RANGE, Resource)])
    case Filler(kind, dataKind, naryKind) =>
      && TemplateOf(kind) == TemplateOf(dataKind) == Slots(RESTRICTION, [Slot(ON_PROPERTY, Iri), Slot(p, Resource)])
      && TemplateOf(naryKind) == Operands(Some(RESTRICTION), ON_PROPERTIES, Iri, 2, [Slot(p, Resource)])
  }

  function SubjectOf(subjects: SubjectTest): Test {
    match subjects
    case AnySubject => Resource
    case IriSubject => Iri
    case OtherSubject => Blank
  }

  ghost predicate TypicalChoice(p: Node, choice: Choice, subjects: SubjectTest) {
    match choice
    case Always(kind) =>
      TemplateOf(kind) == OneTriple(Some(p), SubjectOf(subjects), Resource)
    case ByDataProperty(kind, dataKind, iriOperand) =>
      && TemplateOf(kind) == OneTriple(Some(p), Resource, Resource)
      && TemplateOf(dataKind) == OneTriple(Some(p), Iri, if iriOperand then Iri else Resource)
    case ByDatatype(kind, dataKind) =>
      TemplateOf(kind) == OneTriple(Some(p), Resource, Resource) && TemplateOf(dataKind) == OneTriple(Some(p), Iri, Resource)
  }

  // Lists

  lemma WalkedOperates(graph: set<Triple>, consumed: set<Triple>, s: Node, p: Node, members: Test, minimum: nat)
    requires ListAt(graph, consumed, s, p).Ok?
    requires var cells := ListAt(graph, consumed, s, p).value.1;
      |cells| >= minimum && forall i :: 0 <= i < |cells| ==> Meets(cells[i].value, members)
    ensures Operate(SeqOf(ListAt(graph, consumed, s, p).value.1), members, minimum)
  {
    hide Meets;
    var (head, cells) := ListAt(graph, consumed, s, p).value;
    ParsedSeqOwned(graph, consumed, head);
    var list := SeqOf(cells);
    assert |list.entries| == |cells| + 1;
    forall i | 0 <= i < |list.entries| - 1 ensures Meets(list.entries[i].value.value, members) {
      assert list.entries[i] == Entry(cells[i].cell, Some(cells[i].value));
    }
  }

  // Rules

  lemma OwnsListConforms(graph: set<Triple>, consumed: set<Triple>, s: Node, p: Node, rule: SubjectRule,
      claim: Proposal)
    requires rule.OwnsList? && Typical(BySubject(p, rule))
    requires OwnsListStep(graph, consumed, s, p, rule) == Ok(Some(claim))
    ensures Conforms(claim.element)
  {
    hide TemplateOf, CellTriples, TYPE;
    WalkedOperates(graph, consumed, s, p, if rule.literals then LiteralNode else Resource, rule.minimum);
    hide ListAt, Operate;
  }

  lemma HasOperandConforms(graph: set<Triple>, s: Node, p: Node, rule: SubjectRule, claim: Proposal)
    requires rule.HasOperand? && Typical(BySubject(p, rule))
    requires HasOperandStep(graph, s, p, rule) == Ok(Some(claim))
    ensures Conforms(claim.element)
  {
    hide TemplateOf, TYPE, Value;
  }

  lemma {:induction false} FacetsConform(graph: set<Triple>, consumed: set<Triple>, cells: seq<Cell>)
    requires ParseFacets(graph, consumed, cells).Ok?
    ensures forall f :: f in ParseFacets(graph, consumed, cells).value ==> IsResource(f.anchor) && f.facet.IRI?
  {
    if cells != [] {
      FacetsConform(graph, consumed, cells[1..]);
    }
  }

  lemma HasFacetsConforms(graph: set<Triple>, consumed: set<Triple>, s: Node, claim: Proposal)
    requires HasFacetsStep(graph, consumed, s) == Ok(Some(claim))
    ensures Conforms(claim.element)
  {
    hide Conforms;
    FacetsUnpacked(graph, consumed, s, claim);
    hide HasFacetsStep;
    var (head, cells) := ListAt(graph, consumed, s, WITH_RESTRICTIONS).value;
    FacetsConform(graph, consumed, cells);
    FacetsParsed(graph, consumed, cells);
    ListAccepted(graph, consumed, s, WITH_RESTRICTIONS);
    hide ListAt, ParseFacets;
    FacetedConforms(claim.element, cells);
  }

  lemma FacetsUnpacked(graph: set<Triple>, consumed: set<Triple>, s: Node, claim: Proposal)
    requires HasFacetsStep(graph, consumed, s) == Ok(Some(claim))
    ensures ListAt(graph, consumed, s, WITH_RESTRICTIONS).Ok?
    ensures var cells := ListAt(graph, consumed, s, WITH_RESTRICTIONS).value.1;
      && ParseFacets(graph, consumed, cells).Ok?
      && claim.element.Faceted? && claim.element.kind == DatatypeRestriction && claim.element.onDatatype.IRI?
      && claim.element.facets == ParseFacets(graph, consumed, cells).value
  {
    hide TYPE, DATATYPE, ON_DATATYPE, WITH_RESTRICTIONS, CellTriples, AnchorTriples, ListAt, ParseFacets, Value;
  }

  lemma ListAccepted(graph: set<Triple>, consumed: set<Triple>, s: Node, p: Node)
    requires ListAt(graph, consumed, s, p).Ok?
    ensures Unique(ListAt(graph, consumed, s, p).value.1)
  {
    hide Walk;
    AcceptedIsRead(graph, consumed, ListAt(graph, consumed, s, p).value.0);
  }

  lemma FacetedConforms(e: Element, cells: seq<Cell>)
    requires e.Faceted? && e.kind == DatatypeRestriction && e.onDatatype.IRI?
    requires FacetCells(e.facets) == cells && Unique(cells)
    requires forall f :: f in e.facets ==> IsResource(f.anchor) && f.facet.IRI?
    ensures Conforms(e)
  {
    hide FacetCells, Unique;
  }

  lemma RestrictsConforms(graph: set<Triple>, consumed: set<Triple>, s: Node, p: Node, form: Form, claim: Proposal)
    requires TypicalForm(p, form) && RestrictsStep(graph, consumed, s, p, form) == Ok(Some(claim))
    ensures Conforms(claim.element)
  {
    hide TYPE, RESTRICTION, ON_PROPERTY, Value, PropertyFamily, Owl;
    match form {
      case Filler(_, _, _) => FillerConforms(graph, consumed, s, p, form, claim);
      case Qualified(_, _) => QualifiedConforms(graph, s, p, form, claim);
      case SelfForm => hide TRUE_BOOLEAN;
      case ValueForm =>
      case Unqualified(_, _) => hide TemplateOf; hide IsNonNegativeInteger;
    }
  }

  lemma QualifiedConforms(graph: set<Triple>, s: Node, p: Node, form: Form, claim: Proposal)
    requires form.Qualified? && TypicalForm(p, form) && QualifiedStep(graph, s, p, form) == Ok(Some(claim))
    ensures Conforms(claim.element)
  {
    hide TemplateOf, TYPE, RESTRICTION, ON_PROPERTY, ON_CLASS, ON_DATA_RANGE, Value, HasAny, IsNonNegativeInteger;
  }

  lemma FillerConforms(graph: set<Triple>, consumed: set<Triple>, s: Node, p: Node, form: Form, claim: Proposal)
    requires form.Filler? && TypicalForm(p, form) && FillerStep(graph, consumed, s, p, form) == Ok(Some(claim))
    ensures Conforms(claim.element)
  {
    hide TemplateOf, TYPE, RESTRICTION, ON_PROPERTY, ON_PROPERTIES, CellTriples, Value, HasAny, PropertyFamily;
    if claim.element.ListOwner? {
      WalkedOperates(graph, consumed, s, ON_PROPERTIES, Iri, 2);
    }
    hide ListAt, Operate;
  }

  lemma StatesConforms(graph: set<Triple>, consumed: set<Triple>, t: Triple, p: Node, rule: StatementRule,
      claim: Proposal)
    requires rule.States? && TypicalChoice(p, rule.choice, rule.subjects) && t.p == p && IsResource(t.s)
    requires StatesStep(graph, consumed, t, rule) == Ok(Some(claim))
    ensures Conforms(claim.element)
  {
    hide TemplateOf, TYPE, Has;
  }

  lemma OwnsMembersConforms(graph: set<Triple>, consumed: set<Triple>, t: Triple, rule: StatementRule, claim: Proposal)
    requires rule.OwnsMembers? && Typical(ByStatement(WithType(t.o), rule))
    requires OwnsMembersStep(graph, consumed, t, rule) == Ok(Some(claim))
    ensures Conforms(claim.element)
  {
    hide TemplateOf, TYPE, MEMBERS, CellTriples, MembersProperty, AllDataProperties;
    var p := MembersProperty(graph, t.s, rule.legacy).value;
    WalkedOperates(graph, consumed, t.s, p, Resource, 3);
    hide ListAt, Operate;
  }

  lemma NegationConforms(graph: set<Triple>, consumed: set<Triple>, known: set<Node>, t: Triple, data: bool,
      claim: Proposal)
    requires t.o == NEGATIVE_ASSERTION && AssertsNegationStep(graph, consumed, known, t, data) == Ok(Some(claim))
    ensures Conforms(claim.element)
  {
    hide TYPE, NEGATIVE_ASSERTION, SOURCE_INDIVIDUAL, ASSERTION_PROPERTY, TARGET_INDIVIDUAL, TARGET_VALUE, Value;
    hide HasAny;
  }

  lemma StatementConforms(graph: set<Triple>, consumed: set<Triple>, known: set<Node>, begun: set<Triple>,
      pass: Pass, t: Triple, claim: Proposal)
    requires pass.ByStatement? && Typical(pass) && Fits(graph, begun, pass, Stated(t)) && IsResource(t.s) && IsResource(t.p)
    requires StatementStep(graph, consumed, known, t, pass.claim) == Ok(Some(claim))
    ensures Conforms(claim.element)
  {
    hide TYPE, NEGATIVE_ASSERTION, OwnsMembersStep, StatesStep, AssertsNegationStep;
    match pass.claim {
      case Declares(_, _) => hide TemplateOf; hide Has;
      case States(_, _, _) => StatesConforms(graph, consumed, t, pass.source.property, pass.claim, claim);
      case OwnsMembers(_, _, _) => OwnsMembersConforms(graph, consumed, t, pass.claim, claim);
      case AssertsClass =>
      case AssertsProperty(data) =>
      case AssertsNegation(data) => NegationConforms(graph, consumed, known, t, data, claim);
    }
  }

  lemma SubjectConforms(graph: set<Triple>, consumed: set<Triple>, pass: Pass, s: Node, claim: Proposal)
    requires pass.BySubject? && Typical(pass) && SubjectStep(graph, consumed, s, pass.property, pass.rule) == Ok(Some(claim))
    ensures Conforms(claim.element)
  {
    hide Conforms, OwnsListStep, HasOperandStep, HasFacetsStep, RestrictsStep;
    match pass.rule {
      case OwnsList(_, _, _, _) => OwnsListConforms(graph, consumed, s, pass.property, pass.rule, claim);
      case HasOperand(_, _) => HasOperandConforms(graph, s, pass.property, pass.rule, claim);
      case HasFacets => HasFacetsConforms(graph, consumed, s, claim);
      case Restricts(form) => RestrictsConforms(graph, consumed, s, pass.property, form, claim);
    }
  }

  // Passes

  ghost predicate AllConform(claims: seq<Proposal>) {
    forall i :: 0 <= i < |claims| ==> Conforms(claims[i].element)
  }

  lemma {:induction false} ItemsConform(graph: set<Triple>, begun: set<Triple>, known: set<Node>, pass: Pass,
      claims: seq<Proposal>, items: seq<Item>)
    requires WellFormed(graph) && Typical(pass) && AllConform(claims)
    requires forall i :: 0 <= i < |items| ==> Fits(graph, begun, pass, items[i])
    requires ApplyItems(graph, known, pass, claims, items).Ok?
    ensures AllConform(ApplyItems(graph, known, pass, claims, items).value)
    decreases |items|
  {
    hide Conforms, Typical, Claimed, SubjectStep, StatementStep;
    if items != [] {
      var next := ApplyItem(graph, known, pass, claims, items[0]).value;
      if next != claims {
        var claim := Step(graph, Claimed(claims), known, pass, items[0]).value.value;
        if pass.BySubject? {
          SubjectConforms(graph, Claimed(claims), pass, items[0].node, claim);
        } else {
          StatementConforms(graph, Claimed(claims), known, begun, pass, items[0].triple, claim);
        }
      }
      assert forall i :: 0 <= i < |items[1..]| ==> items[1..][i] == items[i + 1];
      ItemsConform(graph, begun, known, pass, next, items[1..]);
    }
  }

  lemma {:induction false} PassesConform(graph: set<Triple>, claims: seq<Proposal>, passes: seq<Pass>)
    requires WellFormed(graph) && AllConform(claims) && forall pass :: pass in passes ==> Typical(pass)
    requires ApplyPasses(graph, claims, passes).Ok?
    ensures AllConform(ApplyPasses(graph, claims, passes).value)
    decreases |passes|
  {
    hide AllConform, Typical, WellFormed, Claimed, Fits;
    if passes != [] {
      assert passes[0] in passes && forall pass :: pass in passes[1..] ==> pass in passes;
      ItemsFit(graph, Claimed(claims), passes[0]);
      ItemsConform(graph, Claimed(claims), Known(passes[0], ElementsOf(claims)), passes[0], claims, Items(graph,
        Claimed(claims), passes[0]));
      PassesConform(graph, ApplyPass(graph, claims, passes[0]).value, passes[1..]);
    }
  }

  // The table, a few entries at a time

  lemma ExpressionsTypical1()
    ensures Typical(ExpressionPasses()[0]) && Typical(ExpressionPasses()[1]) && Typical(ExpressionPasses()[2])
  {
    hide Owl, Rdfs, TYPE;
  }

  lemma ExpressionsTypical2()
    ensures Typical(ExpressionPasses()[3]) && Typical(ExpressionPasses()[4]) && Typical(ExpressionPasses()[5])
  {
    hide Owl, Rdfs, TYPE;
  }

  lemma ExpressionsTypical3()
    ensures Typical(ExpressionPasses()[6]) && Typical(ExpressionPasses()[7]) && Typical(ExpressionPasses()[8])
  {
    hide Owl, Rdfs, TYPE;
  }

  lemma ExpressionsTypical()
    ensures forall pass :: pass in ExpressionPasses() ==> Typical(pass)
  {
    ExpressionsTypical1();
    ExpressionsTypical2();
    ExpressionsTypical3();
    hide Owl, Rdfs, Typical;
  }

  lemma RestrictionsTypical1()
    ensures Typical(RestrictionPasses()[0]) && Typical(RestrictionPasses()[1])
  {
    hide Owl, Rdfs, TYPE;
  }

  lemma RestrictionsTypical2()
    ensures Typical(RestrictionPasses()[2]) && Typical(RestrictionPasses()[3])
  {
    hide Owl, Rdfs, TYPE;
  }

  lemma RestrictionsTypical3()
    ensures Typical(RestrictionPasses()[4]) && Typical(RestrictionPasses()[5])
  {
    hide Owl, Rdfs, TYPE;
  }

  lemma RestrictionsTypical4()
    ensures Typical(RestrictionPasses()[6]) && Typical(RestrictionPasses()[7])
  {
    hide Owl, Rdfs, TYPE;
  }

  lemma RestrictionsTypical5()
    ensures Typical(RestrictionPasses()[8]) && Typical(RestrictionPasses()[9])
  {
    hide Owl, Rdfs, TYPE;
  }

  lemma RestrictionsTypical()
    ensures forall pass :: pass in RestrictionPasses() ==> Typical(pass)
  {
    RestrictionsTypical1();
    RestrictionsTypical2();
    RestrictionsTypical3();
    RestrictionsTypical4();
    RestrictionsTypical5();
    hide Owl, Rdfs, Typical;
  }

  lemma ListAxiomsTypical1()
    ensures Typical(ListAxiomPasses()[0]) && Typical(ListAxiomPasses()[1]) && Typical(ListAxiomPasses()[2])
  {
    hide Owl, Rdfs, TYPE;
  }

  lemma ListAxiomsTypical2()
    ensures Typical(ListAxiomPasses()[3]) && Typical(ListAxiomPasses()[4])
  {
    hide Owl, Rdfs, TYPE;
  }

  lemma ListAxiomsTypical()
    ensures forall pass :: pass in ListAxiomPasses() ==> Typical(pass)
  {
    ListAxiomsTypical1();
    ListAxiomsTypical2();
    hide Owl, Rdfs, Typical;
  }

  lemma AxiomsTypical1()
    ensures Typical(AxiomPasses()[0]) && Typical(AxiomPasses()[1]) && Typical(AxiomPasses()[2])
  {
    hide Owl, Rdfs, TYPE;
  }

  lemma AxiomsTypical2()
    ensures Typical(AxiomPasses()[3]) && Typical(AxiomPasses()[4]) && Typical(AxiomPasses()[5])
  {
    hide Owl, Rdfs, TYPE;
  }

  lemma AxiomsTypical3()
    ensures Typical(AxiomPasses()[6]) && Typical(AxiomPasses()[7])
  {
    hide Owl, Rdfs, TYPE;
  }

  lemma AxiomsTypical4()
    ensures Typical(AxiomPasses()[8]) && Typical(AxiomPasses()[9])
  {
    hide Owl, Rdfs, TYPE;
  }

  lemma AxiomsTypical5()
    ensures Typical(AxiomPasses()[10]) && Typical(AxiomPasses()[11])
  {
    hide Owl, Rdfs, TYPE;
  }

  lemma AxiomsTypical()
    ensures forall pass :: pass in AxiomPasses() ==> Typical(pass)
  {
    AxiomsTypical1();
    AxiomsTypical2();
    AxiomsTypical3();
    AxiomsTypical4();
    AxiomsTypical5();
    hide Owl, Rdfs, Typical;
  }

  lemma CharacteristicsTypical()
    ensures forall pass :: pass in CharacteristicPasses() ==> Typical(pass)
  {
    hide Owl, Rdfs, TYPE;
  }

  lemma DeclarationsTypical()
    ensures forall pass :: pass in DeclarationPasses() ==> Typical(pass)
  {
    hide Owl, Rdfs, TYPE;
  }

  lemma AssertionsTypical()
    ensures forall pass :: pass in AssertionPasses() ==> Typical(pass)
  {
    hide Owl, Rdfs, TYPE;
  }

  lemma TableIsTypical()
    ensures forall pass :: pass in AllPasses() ==> Typical(pass)
  {
    assert Typical(Differences()) by { DifferencesTypical(); }
    ExpressionsTypical();
    RestrictionsTypical();
    ListAxiomsTypical();
    AxiomsTypical();
    CharacteristicsTypical();
    DeclarationsTypical();
    AssertionsTypical();
    hide ExpressionPasses, RestrictionPasses, ListAxiomPasses, AxiomPasses, CharacteristicPasses, DeclarationPasses;
    hide AssertionPasses, Differences, Typical;
  }

  lemma DifferencesTypical()
    ensures Typical(Differences())
  {
    hide ALL_DIFFERENT, MEMBERS;
  }

  // The theorem: whatever is lifted conforms.
  lemma LiftConforms(graph: set<Triple>)
    requires Lift(graph).Ok?
    ensures forall e :: e in Lift(graph).value ==> Conforms(e)
  {
    hide ApplyPasses, AllPasses, Conforms, StableSort;
    var claims := ApplyPasses(graph, [], AllPasses()).value;
    TableIsTypical();
    PassesConform(graph, [], AllPasses());
    var elements := ElementsOf(claims);
    StableSortSorts(elements, SortKey);
    forall e | e in Lift(graph).value ensures Conforms(e) {
      assert e in multiset(Lift(graph).value);
      assert e in elements;
    }
  }

  // The older list property of differences

  // No slot is for the older property.
  predicate SlotsApart(slots: seq<Slot>) {
    forall i :: 0 <= i < |slots| ==> slots[i].property != DISTINCT_MEMBERS
  }

  // No position of the class is for the older property.
  ghost predicate Apart(template: Template) {
    match template
    case TypeOnly(_) => true
    case OneTriple(only, _, _) => only.None? || only.value != DISTINCT_MEMBERS
    case Slots(_, slots) => SlotsApart(slots)
    case Operands(_, property, _, _, slots) => property != DISTINCT_MEMBERS && SlotsApart(slots)
    case FacetRows => true
  }

  lemma OwlApart()
    ensures forall word :: word != DistinctMembers ==> Owl(word) != DISTINCT_MEMBERS
  {
    Meanings();
    hide Owl, MeaningOf;
  }

  lemma OthersApart()
    ensures TYPE != DISTINCT_MEMBERS && FIRST != DISTINCT_MEMBERS && REST != DISTINCT_MEMBERS
    ensures forall word :: Rdfs(word) != DISTINCT_MEMBERS
  {
    Meanings();
    hide Owl, Rdfs, TYPE, FIRST, REST, MeaningOf;
  }

  lemma FewSlotsApart()
    ensures SlotsApart([])
    ensures forall a: Slot {:trigger SlotsApart([a])} :: a.property != DISTINCT_MEMBERS ==> SlotsApart([a])
    ensures forall a: Slot, b: Slot {:trigger SlotsApart([a, b])} ::
      a.property != DISTINCT_MEMBERS && b.property != DISTINCT_MEMBERS ==> SlotsApart([a, b])
    ensures forall a: Slot, b: Slot, c: Slot {:trigger SlotsApart([a, b, c])} ::
      a.property != DISTINCT_MEMBERS && b.property != DISTINCT_MEMBERS && c.property != DISTINCT_MEMBERS ==> SlotsApart([a, b, c])
  {
    hide DISTINCT_MEMBERS;
  }

  lemma ListWordsApart()
    ensures Owl(IntersectionOf) != DISTINCT_MEMBERS && Owl(UnionOf) != DISTINCT_MEMBERS
    ensures Owl(OneOf) != DISTINCT_MEMBERS && Owl(DisjointUnionOf) != DISTINCT_MEMBERS
    ensures Owl(PropertyChainAxiom) != DISTINCT_MEMBERS && Owl(Word.HasKey) != DISTINCT_MEMBERS
    ensures Owl(SomeValuesFrom) != DISTINCT_MEMBERS && Owl(AllValuesFrom) != DISTINCT_MEMBERS
    ensures MEMBERS != DISTINCT_MEMBERS && ON_PROPERTIES != DISTINCT_MEMBERS
  {
    OwlApart();
    hide Owl;
  }

  lemma FrameWordsApart()
    ensures Owl(ComplementOf) != DISTINCT_MEMBERS && Owl(HasSelf) != DISTINCT_MEMBERS
    ensures Owl(HasValue) != DISTINCT_MEMBERS && Owl(Cardinality) != DISTINCT_MEMBERS
    ensures Owl(MinCardinality) != DISTINCT_MEMBERS && Owl(MinQualifiedCardinality) != DISTINCT_MEMBERS
    ensures Owl(MaxCardinality) != DISTINCT_MEMBERS && Owl(MaxQualifiedCardinality) != DISTINCT_MEMBERS
    ensures Owl(QualifiedCardinality) != DISTINCT_MEMBERS
    ensures Owl(SomeValuesFrom) != DISTINCT_MEMBERS && Owl(AllValuesFrom) != DISTINCT_MEMBERS
    ensures ON_PROPERTY != DISTINCT_MEMBERS && ON_CLASS != DISTINCT_MEMBERS && ON_DATA_RANGE != DISTINCT_MEMBERS
    ensures SOURCE_INDIVIDUAL != DISTINCT_MEMBERS && ASSERTION_PROPERTY != DISTINCT_MEMBERS
    ensures TARGET_INDIVIDUAL != DISTINCT_MEMBERS && TARGET_VALUE != DISTINCT_MEMBERS
  {
    OwlApart();
    hide Owl;
  }

  lemma BinaryApart(c: BinaryClass)
    ensures Apart(BinaryTemplate(c)) && BinaryTemplate(c).OneTriple?
    ensures BinaryTemplate(c).only.None? ==> c == ObjectPropertyAssertion || c == DataPropertyAssertion
  {
    hide Owl, Rdfs, TYPE, DISTINCT_MEMBERS;
    OwlApart();
    OthersApart();
  }

  lemma FrameApart(c: FrameClass)
    ensures Apart(FrameTemplate(c)) && FrameTemplate(c).Slots?
  {
    hide SlotsApart, Owl, DATATYPE, CLASS, RESTRICTION, NEGATIVE_ASSERTION, ON_PROPERTY, ON_CLASS, ON_DATA_RANGE;
    hide SOURCE_INDIVIDUAL, ASSERTION_PROPERTY, TARGET_INDIVIDUAL, TARGET_VALUE, TRUE_BOOLEAN, DISTINCT_MEMBERS;
    FrameWordsApart();
    FewSlotsApart();
  }

  lemma ListApart(c: ListClass)
    ensures Apart(ListTemplate(c)) && ListTemplate(c).Operands?
  {
    hide SlotsApart, Owl, DATATYPE, CLASS, RESTRICTION, ALL_DIFFERENT, MEMBERS, ON_PROPERTIES, DISTINCT_MEMBERS;
    ListWordsApart();
    FewSlotsApart();
  }

  lemma FieldsApart(name: Node, fields: seq<Field>, slots: seq<Slot>)
    requires FillsSlots(fields, slots) && SlotsApart(slots)
    ensures forall t :: t in FieldTriples(name, fields) ==> t.p != DISTINCT_MEMBERS
  {
    hide DISTINCT_MEMBERS, Meets;
  }

  lemma ListTriplesApart(list: Seq)
    ensures forall t :: t in list.AsTriples() ==> t.p != DISTINCT_MEMBERS
  {
    OthersApart();
    hide DISTINCT_MEMBERS, FIRST, REST;
  }

  // The element is a property assertion, or the triple is one of its facets.
  ghost predicate AssertsOrFaces(e: Element, t: Triple) {
    || e.kind == Binary(ObjectPropertyAssertion) || e.kind == Binary(DataPropertyAssertion)
    || (e.Faceted? && t in AnchorTriples(e.facets))
  }

  lemma FacetedPrinted(e: Element, t: Triple)
    requires e.Faceted? && t in e.AsTriples() && t.p == DISTINCT_MEMBERS
    ensures t in AnchorTriples(e.facets)
  {
    OthersApart();
    assert ON_DATATYPE != DISTINCT_MEMBERS && WITH_RESTRICTIONS != DISTINCT_MEMBERS by { OwlApart(); }
    hide TYPE, FIRST, REST, ON_DATATYPE, WITH_RESTRICTIONS, DISTINCT_MEMBERS, AnchorTriples;
  }

  lemma OlderPropertyPrinted(e: Element, t: Triple)
    requires Conforms(e) && t in e.AsTriples() && t.p == DISTINCT_MEMBERS
    ensures AssertsOrFaces(e, t)
  {
    OthersApart();
    hide Operate, FillsSlots, SlotsApart, FieldTriples, FacetTriples, BinaryTemplate, FrameTemplate, ListTemplate;
    hide TYPE, DISTINCT_MEMBERS;
    match e.kind {
      case Entity(_) =>
      case Binary(c) => BinaryApart(c);
      case Frame(c) =>
        FrameApart(c);
        FieldsApart(e.name, e.values, FrameTemplate(c).slots);
      case Listing(c) =>
        ListApart(c);
        FieldsApart(e.name, e.values, ListTemplate(c).slots);
        ListTriplesApart(e.list);
      case DatatypeRestriction => FacetedPrinted(e, t);
    }
  }

  // Whatever the older list property says in a lifted graph is an older list of
  // differences, a property assertion or a facet.
  lemma OlderPropertyClaimed(graph: set<Triple>)
    requires Lift(graph).Ok?
    ensures forall t :: t in graph && t.p == DISTINCT_MEMBERS ==>
      Legacy(graph, t) || exists e :: e in Lift(graph).value && t in e.AsTriples() && AssertsOrFaces(e, t)
  {
    LiftIsPartition(graph);
    LiftConforms(graph);
    hide Lift, Conforms, Disjointly, Legacy, AssertsOrFaces, DISTINCT_MEMBERS;
    forall t | t in graph && t.p == DISTINCT_MEMBERS && !Legacy(graph, t)
      ensures exists e :: e in Lift(graph).value && t in e.AsTriples() && AssertsOrFaces(e, t)
    {
      assert t in RenamedAll(graph, graph);
      var e :| e in Lift(graph).value && t in e.AsTriples();
      OlderPropertyPrinted(e, t);
    }
  }
}
