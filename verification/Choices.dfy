// Where a triple could be lifted to one of several classes, the typing of the
// graph decides, and an assertion is lifted only if another element names its
// class or property.
module Choices {
  import opened Rdf
  import opened RdfLists
  import opened Ordering
  import opened Kinds
  import opened Elements
  import opened Passes
  import opened Lifting

  // What the class of an element depends on besides its triples.
  datatype Side =
    | NoSide
    | ByTyping(data: bool)
    | ByDatatypeTyping(data: bool)
    | ByFamily(data: bool)
    | ByMembers(data: bool)
    | ClassGate
    | PropertyGate(data: bool)
    | NegationGate(data: bool)

  function SideOf(kind: Kind): Side {
    match kind
    case Entity(c) =>
      (match c
       case FunctionalObjectProperty => ByTyping(false)
       case FunctionalDataProperty => ByTyping(true)
       case _ => NoSide)
    case Binary(c) => BinarySide(c)
    case Frame(c) => FrameSide(c)
    case Listing(c) =>
      (match c
       case DisjointObjectPropertiesNary => ByMembers(false)
       case DisjointDataPropertiesNary => ByMembers(true)
       case _ => NoSide)
    case DatatypeRestriction => NoSide
  }

  function BinarySide(c: BinaryClass): Side {
    match c
    case SubObjectPropertyOf => ByTyping(false)
    case ObjectPropertyDomain => ByTyping(false)
    case ObjectPropertyRange => ByTyping(false)
    case DisjointObjectProperties => ByTyping(false)
    case EquivalentObjectProperties => ByTyping(false)
    case SubDataPropertyOf => ByTyping(true)
    case DataPropertyDomain => ByTyping(true)
    case DataPropertyRange => ByTyping(true)
    case DisjointDataProperties => ByTyping(true)
    case EquivalentDataProperties => ByTyping(true)
    case EquivalentClasses => ByDatatypeTyping(false)
    case DatatypeDefinition => ByDatatypeTyping(true)
    case ClassAssertion => ClassGate
    case ObjectPropertyAssertion => PropertyGate(false)
    case DataPropertyAssertion => PropertyGate(true)
    case _ => NoSide
  }

  function FrameSide(c: FrameClass): Side {
    match c
    case ObjectMinCardinality => ByFamily(false)
    case ObjectMaxCardinality => ByFamily(false)
    case ObjectExactCardinality => ByFamily(false)
    case ObjectSomeValuesFrom => ByFamily(false)
    case ObjectAllValuesFrom => ByFamily(false)
    case DataMinCardinality => ByFamily(true)
    case DataMaxCardinality => ByFamily(true)
    case DataExactCardinality => ByFamily(true)
    case DataSomeValuesFrom => ByFamily(true)
    case DataAllValuesFrom => ByFamily(true)
    case NegativeObjectPropertyAssertion => NegationGate(false)
    case NegativeDataPropertyAssertion => NegationGate(true)
    case _ => NoSide
  }

  function KnownProperties(elements: seq<Element>, data: bool): set<Node> {
    if data then KnownDataProperties(elements) else KnownObjectProperties(elements)
  }

  // The class of the element is the one the graph and the other elements call for.
  ghost predicate Chosen(graph: set<Triple>, elements: seq<Element>, e: Element) {
    match SideOf(e.kind)
    case NoSide => true
    case ByTyping(data) => data == Has(graph, e.name, TYPE, DATATYPE_PROPERTY)
    case ByDatatypeTyping(data) => data == Has(graph, e.name, TYPE, DATATYPE)
    case ByFamily(data) => e.Described? && |e.values| > 0 && PropertyFamily(graph, e.values[0].operand) == Ok(!data)
    case ByMembers(data) => e.ListOwner? && data == MembersAreData(graph, e.list)
    case ClassGate => e.BinaryAxiom? && e.operand in KnownClassExpressions(elements)
    case PropertyGate(data) => e.BinaryAxiom? && e.property in KnownProperties(elements, data)
    case NegationGate(data) => e.Described? && |e.values| > 1 && e.values[1].operand in KnownProperties(elements, data)
  }

  predicate MembersAreData(graph: set<Triple>, list: Seq) {
    && |list.entries| > 1
    && forall i :: 0 <= i < |list.entries| && list.entries[i].value.Some? ==>
         Has(graph, list.entries[i].value.value, TYPE, DATATYPE_PROPERTY)
  }

  // The entry of the table offers the right alternatives.
  ghost predicate Sided(pass: Pass) {
    match pass
    case BySubject(_, OwnsList(_, kind, _, _)) => SideOf(kind) == NoSide
    case BySubject(_, HasOperand(_, kind)) => SideOf(kind) == NoSide
    case BySubject(_, HasFacets) => true
    case BySubject(_, Restricts(form)) => SidedForm(form)
    case ByStatement(_, Declares(kind, dataKind)) =>
      if kind == dataKind then SideOf(kind) == NoSide else SideOf(kind) == ByTyping(false) && SideOf(dataKind) == ByTyping(true)
    case ByStatement(_, States(choice, _, _)) => SidedChoice(choice)
    case ByStatement(_, OwnsMembers(kind, dataKind, _)) =>
      if kind == dataKind then SideOf(kind) == NoSide else SideOf(kind) == ByMembers(false) && SideOf(dataKind) == ByMembers(true)
    case ByStatement(_, _) => true
  }

  ghost predicate SidedForm(form: Form) {
    match form
    case SelfForm => true
    case ValueForm => true
    case Unqualified(kind, dataKind) => SideOf(kind) == ByFamily(false) && SideOf(dataKind) == ByFamily(true)
    case Qualified(kind, dataKind) => SideOf(kind) == SideOf(dataKind) == NoSide
    case Filler(kind, dataKind, naryKind) =>
      SideOf(kind) == ByFamily(false) && SideOf(dataKind) == ByFamily(true) && SideOf(naryKind) == NoSide
  }

  ghost predicate SidedChoice(choice: Choice) {
    match choice
    case Always(kind) => SideOf(kind) == NoSide
    case ByDataProperty(kind, dataKind, _) => SideOf(kind) == ByTyping(false) && SideOf(dataKind) == ByTyping(true)
    case ByDatatype(kind, dataKind) => SideOf(kind) == ByDatatypeTyping(false) && SideOf(dataKind) == ByDatatypeTyping(true)
  }

  // Rules

  lemma RestrictsChosen(graph: set<Triple>, consumed: set<Triple>, elements: seq<Element>, s: Node, p: Node,
      form: Form, claim: Proposal)
    requires SidedForm(form) && RestrictsStep(graph, consumed, s, p, form) == Ok(Some(claim))
    ensures Chosen(graph, elements, claim.element)
  {
    hide TYPE, RESTRICTION, ON_PROPERTY, ON_PROPERTIES, ON_CLASS, ON_DATA_RANGE, Value, ListAt, HasAny;
    hide PropertyFamily, CellTriples;
    match form {
      case Filler(_, _, _) => hide SideOf;
      case Qualified(_, _) => hide SideOf;
      case Unqualified(_, _) => hide SideOf; hide IsNonNegativeInteger;
      case _ => hide TRUE_BOOLEAN;
    }
  }

  lemma SubjectChosen(graph: set<Triple>, consumed: set<Triple>, elements: seq<Element>, pass: Pass, s: Node,
      claim: Proposal)
    requires pass.BySubject? && Sided(pass) && SubjectStep(graph, consumed, s, pass.property, pass.rule) == Ok(Some(claim))
    ensures Chosen(graph, elements, claim.element)
  {
    hide TYPE, DATATYPE, ON_DATATYPE, WITH_RESTRICTIONS, Value, ListAt, ParseFacets, CellTriples, RestrictsStep;
    match pass.rule {
      case Restricts(form) => RestrictsChosen(graph, consumed, elements, s, pass.property, form, claim);
      case HasFacets =>
      case _ => hide SideOf;
    }
  }

  lemma MembersChosen(graph: set<Triple>, cells: seq<Cell>)
    ensures MembersAreData(graph, SeqOf(cells)) <==> AllDataProperties(graph, cells)
  {
    hide TYPE, DATATYPE_PROPERTY;
    var list := SeqOf(cells);
    assert |list.entries| == |cells| + 1;
    assert forall i :: 0 <= i < |cells| ==> list.entries[i] == Entry(cells[i].cell, Some(cells[i].value));
  }

  lemma OwnsMembersChosen(graph: set<Triple>, consumed: set<Triple>, elements: seq<Element>, t: Triple,
      rule: StatementRule, claim: Proposal)
    requires rule.OwnsMembers? && Sided(ByStatement(WithType(t.o), rule))
    requires OwnsMembersStep(graph, consumed, t, rule) == Ok(Some(claim))
    ensures Chosen(graph, elements, claim.element)
  {
    hide SideOf, TYPE, MEMBERS, CellTriples, MembersProperty, AllDataProperties, MembersAreData;
    var p := MembersProperty(graph, t.s, rule.legacy).value;
    MembersChosen(graph, ListAt(graph, consumed, t.s, p).value.1);
    hide ListAt;
  }

  lemma NegationChosen(graph: set<Triple>, consumed: set<Triple>, elements: seq<Element>, t: Triple, data: bool,
      claim: Proposal)
    requires AssertsNegationStep(graph, consumed, KnownProperties(elements, data), t, data) == Ok(Some(claim))
    ensures Chosen(graph, elements, claim.element)
  {
    hide TYPE, SOURCE_INDIVIDUAL, ASSERTION_PROPERTY, TARGET_INDIVIDUAL, TARGET_VALUE, Value, HasAny, KnownProperties;
  }

  lemma StatementChosen(graph: set<Triple>, consumed: set<Triple>, elements: seq<Element>, pass: Pass, t: Triple,
      claim: Proposal)
    requires pass.ByStatement? && Sided(pass)
    requires StatementStep(graph, consumed, Known(pass, elements), t, pass.claim) == Ok(Some(claim))
    ensures Chosen(graph, elements, claim.element)
  {
    hide TYPE, DATATYPE, CLASS, DATATYPE_PROPERTY, OwnsMembersStep, AssertsNegationStep, KnownClassExpressions;
    hide KnownObjectProperties, KnownDataProperties;
    match pass.claim {
      case OwnsMembers(_, _, _) => OwnsMembersChosen(graph, consumed, elements, t, pass.claim, claim);
      case AssertsNegation(data) => NegationChosen(graph, consumed, elements, t, data, claim);
      case Declares(_, _) => hide SideOf;
      case States(_, _, _) => hide SideOf;
      case _ =>
    }
  }

  // More elements name more.
  lemma ChosenGrows(graph: set<Triple>, elements: seq<Element>, more: seq<Element>, e: Element)
    requires Chosen(graph, elements, e) && forall x :: x in elements ==> x in more
    ensures Chosen(graph, more, e)
  {
    hide TYPE, Has, PropertyFamily, MembersAreData, ClassExpressions, ObjectProperties, DataProperties;
  }

  // Passes

  ghost predicate AllChosen(graph: set<Triple>, elements: seq<Element>) {
    forall e :: e in elements ==> Chosen(graph, elements, e)
  }

  lemma ChosenPlus(graph: set<Triple>, elements: seq<Element>, e: Element)
    requires AllChosen(graph, elements) && Chosen(graph, elements, e)
    ensures AllChosen(graph, elements + [e])
  {
    hide Chosen;
    forall x | x in elements + [e] ensures Chosen(graph, elements + [e], x) {
      ChosenGrows(graph, elements, elements + [e], x);
    }
  }

  lemma {:induction false} ItemsChosen(graph: set<Triple>, begun: seq<Element>, pass: Pass, claims: seq<Proposal>,
      items: seq<Item>)
    requires Sided(pass) && AllChosen(graph, ElementsOf(claims)) && forall e :: e in begun ==> e in ElementsOf(claims)
    requires ApplyItems(graph, Known(pass, begun), pass, claims, items).Ok?
    ensures AllChosen(graph, ElementsOf(ApplyItems(graph, Known(pass, begun), pass, claims, items).value))
    decreases |items|
  {
    hide AllChosen, Chosen, Sided, Claimed, ElementsOf, SubjectStep, StatementStep, Known;
    if items != [] {
      var next := ApplyItem(graph, Known(pass, begun), pass, claims, items[0]).value;
      if next != claims {
        var claim := Step(graph, Claimed(claims), Known(pass, begun), pass, items[0]).value.value;
        if pass.BySubject? {
          SubjectChosen(graph, Claimed(claims), begun, pass, items[0].node, claim);
        } else {
          StatementChosen(graph, Claimed(claims), begun, pass, items[0].triple, claim);
        }
        ChosenGrows(graph, begun, ElementsOf(claims), claim.element);
        ClaimedPlus(claims, claim);
        ChosenPlus(graph, ElementsOf(claims), claim.element);
      }
      ItemsChosen(graph, begun, pass, next, items[1..]);
    }
  }

  lemma {:induction false} PassesChosen(graph: set<Triple>, claims: seq<Proposal>, passes: seq<Pass>)
    requires AllChosen(graph, ElementsOf(claims)) && forall pass :: pass in passes ==> Sided(pass)
    requires ApplyPasses(graph, claims, passes).Ok?
    ensures AllChosen(graph, ElementsOf(ApplyPasses(graph, claims, passes).value))
    decreases |passes|
  {
    hide AllChosen, Sided, Claimed, ElementsOf, Known, Items;
    if passes != [] {
      assert passes[0] in passes && forall pass :: pass in passes[1..] ==> pass in passes;
      ItemsChosen(graph, ElementsOf(claims), passes[0], claims, Items(graph, Claimed(claims), passes[0]));
      PassesChosen(graph, ApplyPass(graph, claims, passes[0]).value, passes[1..]);
    }
  }

  lemma ExpressionsSided()
    ensures forall pass :: pass in ExpressionPasses() ==> Sided(pass)
  {
    hide Owl, Rdfs, TYPE;
  }

  lemma RestrictionSides()
    ensures SideOf(Frame(ObjectMinCardinality)) == ByFamily(false) && SideOf(Frame(DataMinCardinality)) == ByFamily(true)
    ensures SideOf(Frame(ObjectMaxCardinality)) == ByFamily(false) && SideOf(Frame(DataMaxCardinality)) == ByFamily(true)
    ensures SideOf(Frame(ObjectExactCardinality)) == ByFamily(false)
    ensures SideOf(Frame(DataExactCardinality)) == ByFamily(true)
    ensures SideOf(Frame(ObjectSomeValuesFrom)) == ByFamily(false) && SideOf(Frame(DataSomeValuesFrom)) == ByFamily(true)
    ensures SideOf(Frame(ObjectAllValuesFrom)) == ByFamily(false) && SideOf(Frame(DataAllValuesFrom)) == ByFamily(true)
  {
  }

  lemma QualifiedSides()
    ensures SideOf(Frame(ObjectMinCardinalityQualified)) == SideOf(Frame(DataMinCardinalityQualified)) == NoSide
    ensures SideOf(Frame(ObjectMaxCardinalityQualified)) == SideOf(Frame(DataMaxCardinalityQualified)) == NoSide
    ensures SideOf(Frame(ObjectExactCardinalityQualified)) == SideOf(Frame(DataExactCardinalityQualified)) == NoSide
    ensures SideOf(Listing(DataSomeValuesFromNary)) == SideOf(Listing(DataAllValuesFromNary)) == NoSide
  {
  }

  lemma RestrictionsSided()
    ensures forall pass :: pass in RestrictionPasses() ==> Sided(pass)
  {
    RestrictionSides();
    QualifiedSides();
    hide SideOf, Owl;
  }

  lemma ListAxiomsSided()
    ensures forall pass :: pass in ListAxiomPasses() ==> Sided(pass)
  {
    hide Owl, Rdfs, TYPE;
  }

  lemma DifferencesSided()
    ensures forall pass :: pass in [Differences()] ==> Sided(pass)
  {
    hide Owl, Rdfs, TYPE;
  }

  lemma AxiomSides()
    ensures SideOf(Binary(SubObjectPropertyOf)) == ByTyping(false) && SideOf(Binary(SubDataPropertyOf)) == ByTyping(true)
    ensures SideOf(Binary(ObjectPropertyDomain)) == ByTyping(false) && SideOf(Binary(DataPropertyDomain)) == ByTyping(true)
    ensures SideOf(Binary(ObjectPropertyRange)) == ByTyping(false) && SideOf(Binary(DataPropertyRange)) == ByTyping(true)
    ensures SideOf(Binary(DisjointObjectProperties)) == ByTyping(false)
    ensures SideOf(Binary(DisjointDataProperties)) == ByTyping(true)
  {
  }

  lemma OtherAxiomSides()
    ensures SideOf(Binary(EquivalentObjectProperties)) == ByTyping(false)
    ensures SideOf(Binary(EquivalentDataProperties)) == ByTyping(true)
    ensures SideOf(Binary(EquivalentClasses)) == ByDatatypeTyping(false)
    ensures SideOf(Binary(DatatypeDefinition)) == ByDatatypeTyping(true)
    ensures SideOf(Binary(DisjointClasses)) == NoSide && SideOf(Binary(BinaryClass.SubClassOf)) == NoSide
    ensures SideOf(Binary(DifferentIndividuals)) == NoSide && SideOf(Binary(SameIndividual)) == NoSide
    ensures SideOf(Listing(SubObjectPropertyOfChain)) == NoSide && SideOf(Listing(ListClass.HasKey)) == NoSide
  {
  }

  lemma AxiomsSided()
    ensures forall pass :: pass in AxiomPasses() ==> Sided(pass)
  {
    AxiomSides();
    OtherAxiomSides();
    hide SideOf, Owl, Rdfs;
  }

  lemma CharacteristicsSided()
    ensures forall pass :: pass in CharacteristicPasses() ==> Sided(pass)
  {
    hide Owl, Rdfs, TYPE;
  }

  lemma DeclarationsSided()
    ensures forall pass :: pass in DeclarationPasses() ==> Sided(pass)
  {
    hide Owl, Rdfs, TYPE;
  }

  lemma AssertionsSided()
    ensures forall pass :: pass in AssertionPasses() ==> Sided(pass)
  {
    hide Owl, Rdfs, TYPE;
  }

  lemma TableIsSided()
    ensures forall pass :: pass in AllPasses() ==> Sided(pass)
  {
    ExpressionsSided();
    RestrictionsSided();
    ListAxiomsSided();
    DifferencesSided();
    AxiomsSided();
    CharacteristicsSided();
    DeclarationsSided();
    AssertionsSided();
    hide ExpressionPasses, RestrictionPasses, ListAxiomPasses, Differences, AxiomPasses, CharacteristicPasses;
    hide DeclarationPasses, AssertionPasses, Sided;
  }

  // The theorem: every element is of the class that the graph and the lifted
  // elements together call for.
  lemma LiftChooses(graph: set<Triple>)
    requires Lift(graph).Ok?
    ensures forall e :: e in Lift(graph).value ==> Chosen(graph, Lift(graph).value, e)
  {
    hide ApplyPasses, AllPasses, Chosen, StableSort;
    var claims := ApplyPasses(graph, [], AllPasses()).value;
    TableIsSided();
    PassesChosen(graph, [], AllPasses());
    var elements, sorted := ElementsOf(claims), Lift(graph).value;
    StableSortSorts(elements, SortKey);
    forall e ensures e in sorted <==> e in elements {
      assert e in multiset(sorted) <==> e in multiset(elements);
    }
    forall e | e in sorted ensures Chosen(graph, sorted, e) {
      ChosenGrows(graph, elements, sorted, e);
    }
  }
}
