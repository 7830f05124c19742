// The passes of the graph lifter as a table, and what each of them makes of
// one subject or one statement.
module Passes {
  import opened Rdf
  import opened RdfLists
  import opened Kinds
  import opened Elements

  // An input graph is malformed, holds something no pass claims, or makes a
  // facet row whose predicate is not an IRI.
  datatype LiftError = Malformed | Unsupported | InvalidFacet

  datatype Pass =
    // One step for each subject of the property, by name.
    | BySubject(property: Node, rule: SubjectRule)
    // One step for each matching triple, in order.
    | ByStatement(source: Source, claim: StatementRule)

  datatype Source = WithProperty(property: Node) | WithType(rdfType: Node) | AnyType | Unclaimed

  datatype SubjectRule =
    | OwnsList(declared: Option<Node>, kind: Kind, literals: bool, minimum: nat)
    | HasOperand(rdfType: Node, kind: Kind)
    | HasFacets
    | Restricts(form: Form)

  datatype Form =
    | SelfForm
    | ValueForm
    | Unqualified(kind: Kind, dataKind: Kind)
    | Qualified(kind: Kind, dataKind: Kind)
    | Filler(kind: Kind, dataKind: Kind, naryKind: Kind)

  datatype StatementRule =
    | Declares(kind: Kind, dataKind: Kind)
    | States(choice: Choice, subjects: SubjectTest, rechecks: bool)
    | OwnsMembers(kind: Kind, dataKind: Kind, legacy: bool)
    | AssertsClass
    | AssertsProperty(data: bool)
    | AssertsNegation(data: bool)

  datatype Choice =
    | Always(kind: Kind)
    | ByDataProperty(kind: Kind, dataKind: Kind, iriOperand: bool)
    | ByDatatype(kind: Kind, dataKind: Kind)

  datatype SubjectTest = AnySubject | IriSubject | OtherSubject

  datatype Item = Named(node: Node) | Stated(triple: Triple)

  // An element and the triples it claims.
  datatype Proposal = Proposal(element: Element, triples: set<Triple>)

  type Outcome = Result<Option<Proposal>, LiftError>

  predicate Has(graph: set<Triple>, s: Node, p: Node, o: Node) {
    Triple(s, p, o) in graph
  }

  predicate HasAny(graph: set<Triple>, s: Node, p: Node) {
    Objects(graph, s, p) != {}
  }

  // Subject rules

  // The single operand list of a subject.
  function ListAt(graph: set<Triple>, consumed: set<Triple>, s: Node, p: Node): Result<(Node, seq<Cell>), LiftError> {
    match Value(graph, s, p)
    case None => Err(Malformed)
    case Some(head) =>
      if !IsResource(head) then Err(Malformed)
      else
        match Walk(graph, consumed, head)
        case Err(_) => Err(Malformed)
        case Ok(cells) => Ok((head, cells))
  }

  predicate AllResources(cells: seq<Cell>) {
    forall i :: 0 <= i < |cells| ==> IsResource(cells[i].value)
  }

  predicate AllLiterals(cells: seq<Cell>) {
    forall i :: 0 <= i < |cells| ==> cells[i].value.Literal?
  }

  predicate AllIris(cells: seq<Cell>) {
    forall i :: 0 <= i < |cells| ==> cells[i].value.IRI?
  }

  function OwnsListStep(graph: set<Triple>, consumed: set<Triple>, s: Node, p: Node, rule: SubjectRule): Outcome
    requires rule.OwnsList?
  {
    if rule.declared.Some? && !Has(graph, s, TYPE, rule.declared.value) then Ok(None)
    else
      match ListAt(graph, consumed, s, p)
      case Err(e) => Err(e)
      case Ok((head, cells)) =>
        if !(if rule.literals then AllLiterals(cells) else AllResources(cells)) || |cells| < rule.minimum then Err(Malformed)
        else
          Ok(Some(Proposal(ListOwner(rule.kind, s, rule.declared, p, SeqOf(cells), []),
            TypeTriples(s, rule.declared) + {Triple(s, p, head)} + CellTriples(cells))))
  }

  function HasOperandStep(graph: set<Triple>, s: Node, p: Node, rule: SubjectRule): Outcome
    requires rule.HasOperand?
  {
    if !Has(graph, s, TYPE, rule.rdfType) then Ok(None)
    else
      match Value(graph, s, p)
      case None => Err(Malformed)
      case Some(operand) =>
        if !IsResource(operand) then Err(Malformed)
        else Ok(Some(DescribedProposal(rule.kind, s, rule.rdfType, [Field(p, operand)])))
  }

  function DescribedProposal(kind: Kind, s: Node, rdfType: Node, values: seq<Field>): Proposal {
    Proposal(Described(kind, s, rdfType, values), {Triple(s, TYPE, rdfType)} + FieldTriples(s, values))
  }

  // The facet triples of an anchor: all its triples but those of a list.
  function FacetCandidates(graph: set<Triple>, anchor: Node): set<Triple> {
    set t | t in graph && t.s == anchor && t.p != FIRST && t.p != REST
  }

  function ParseFacets(graph: set<Triple>, consumed: set<Triple>, cells: seq<Cell>): Result<seq<Facet>, LiftError> {
    if cells == [] then Ok([])
    else
      var candidates := FacetCandidates(graph, cells[0].value);
      if !IsResource(cells[0].value) || |candidates| != 1 then Err(Malformed)
      else
        var t := The(candidates);
        if t in consumed then Err(Malformed)
        else if !t.p.IRI? then Err(InvalidFacet)
        else
          match ParseFacets(graph, consumed, cells[1..])
          case Err(e) => Err(e)
          case Ok(facets) => Ok([Facet(cells[0].cell, cells[0].value, t.p, t.o)] + facets)
  }

  function HasFacetsStep(graph: set<Triple>, consumed: set<Triple>, s: Node): Outcome {
    if !Has(graph, s, TYPE, DATATYPE) then Ok(None)
    else
      match Value(graph, s, ON_DATATYPE)
      case None => Err(Malformed)
      case Some(onDatatype) =>
        if !onDatatype.IRI? then Err(Malformed)
        else
          match ListAt(graph, consumed, s, WITH_RESTRICTIONS)
          case Err(e) => Err(e)
          case Ok((head, cells)) =>
            match ParseFacets(graph, consumed, cells)
            case Err(e) => Err(e)
            case Ok(facets) =>
              Ok(Some(Proposal(Faceted(DatatypeRestriction, s, onDatatype, facets),
                {Triple(s, TYPE, DATATYPE), Triple(s, ON_DATATYPE, onDatatype), Triple(s, WITH_RESTRICTIONS, head)} +
                CellTriples(cells) + AnchorTriples(facets))))
  }

  // Whether a restricted property counts as an object property.
  function PropertyFamily(graph: set<Triple>, p: Node): Result<bool, LiftError> {
    var isData := Has(graph, p, TYPE, DATATYPE_PROPERTY);
    var isObject := (exists hint :: hint in ObjectHints() && Has(graph, p, TYPE, Owl(hint)))
      || (Has(graph, p, TYPE, FUNCTIONAL_PROPERTY) && !isData);
    if isData && isObject then Err(Malformed) else Ok(isObject)
  }

  // Types that make a property an object property.
  function ObjectHints(): set<Word> {
    {ObjectProperty, InverseFunctionalProperty, ReflexiveProperty, IrreflexiveProperty,
     SymmetricProperty, AsymmetricProperty, TransitiveProperty}
  }

  function RestrictsStep(graph: set<Triple>, consumed: set<Triple>, s: Node, p: Node, form: Form): Outcome {
    if !Has(graph, s, TYPE, RESTRICTION) then Ok(None)
    else
      match form
      case Filler(_, _, _) => FillerStep(graph, consumed, s, p, form)
      case Qualified(_, _) => QualifiedStep(graph, s, p, form)
      case _ =>
        if form.Unqualified? && Triple(s, TYPE, RESTRICTION) in consumed then Ok(None)
        else
          match (Value(graph, s, ON_PROPERTY), Value(graph, s, p))
          case (Some(property), Some(v)) =>
            if !property.IRI? then Err(Malformed)
            else
              (match RestrictionKind(graph, property, v, form)
               case Err(e) => Err(e)
               case Ok(kind) => Ok(Some(DescribedProposal(kind, s, RESTRICTION, [Field(ON_PROPERTY, property), Field(p, v)]))))
          case _ => Err(Malformed)
  }

  function RestrictionKind(graph: set<Triple>, property: Node, v: Node, form: Form): Result<Kind, LiftError>
    requires form.SelfForm? || form.ValueForm? || form.Unqualified?
  {
    match form
    case SelfForm => if v == TRUE_BOOLEAN then Ok(Frame(ObjectHasSelf)) else Err(Malformed)
    case ValueForm => Ok(if v.Literal? then Frame(DataHasValue) else Frame(ObjectHasValue))
    case Unqualified(kind, dataKind) =>
      match PropertyFamily(graph, property)
      case Err(e) => Err(e)
      case Ok(isObject) => if IsNonNegativeInteger(v) then Ok(if isObject then kind else dataKind) else Err(Malformed)
  }

  function QualifiedStep(graph: set<Triple>, s: Node, p: Node, form: Form): Outcome
    requires form.Qualified?
  {
    var onClass, onDataRange := HasAny(graph, s, ON_CLASS), HasAny(graph, s, ON_DATA_RANGE);
    if onClass == onDataRange then Err(Malformed)
    else
      var qualifier := if onClass then ON_CLASS else ON_DATA_RANGE;
      match (Value(graph, s, ON_PROPERTY), Value(graph, s, p), Value(graph, s, qualifier))
      case (Some(property), Some(n), Some(filler)) =>
        if !property.IRI? || !IsResource(filler) || !IsNonNegativeInteger(n) then Err(Malformed)
        else
          Ok(Some(DescribedProposal(if onClass then form.kind else form.dataKind, s, RESTRICTION,
            [Field(ON_PROPERTY, property), Field(p, n), Field(qualifier, filler)])))
      case _ => Err(Malformed)
  }

  // A restriction over one property, over a list of properties, or over
  // neither, which no pass claims.
  function FillerStep(graph: set<Triple>, consumed: set<Triple>, s: Node, p: Node, form: Form): Outcome
    requires form.Filler?
  {
    var one, many := HasAny(graph, s, ON_PROPERTY), HasAny(graph, s, ON_PROPERTIES);
    if one && many then Err(Malformed)
    else if many then
      match (ListAt(graph, consumed, s, ON_PROPERTIES), Value(graph, s, p))
      case (Ok((head, cells)), Some(filler)) =>
        if !IsResource(filler) || !AllIris(cells) || |cells| < 2 then Err(Malformed)
        else
          Ok(Some(Proposal(ListOwner(form.naryKind, s, Some(RESTRICTION), ON_PROPERTIES, SeqOf(cells), [Field(p, filler)]),
            {Triple(s, TYPE, RESTRICTION), Triple(s, ON_PROPERTIES, head), Triple(s, p, filler)} + CellTriples(cells))))
      case _ => Err(Malformed)
    else if one then
      match (Value(graph, s, ON_PROPERTY), Value(graph, s, p))
      case (Some(property), Some(filler)) =>
        if !property.IRI? || !IsResource(filler) then Err(Malformed)
        else
          (match PropertyFamily(graph, property)
           case Err(e) => Err(e)
           case Ok(isObject) =>
             Ok(Some(DescribedProposal(if isObject then form.kind else form.dataKind, s, RESTRICTION,
               [Field(ON_PROPERTY, property), Field(p, filler)]))))
      case _ => Err(Malformed)
    else Ok(None)
  }

  function SubjectStep(graph: set<Triple>, consumed: set<Triple>, s: Node, p: Node, rule: SubjectRule): Outcome {
    match rule
    case OwnsList(_, _, _, _) => OwnsListStep(graph, consumed, s, p, rule)
    case HasOperand(_, _) => HasOperandStep(graph, s, p, rule)
    case HasFacets => HasFacetsStep(graph, consumed, s)
    case Restricts(form) => RestrictsStep(graph, consumed, s, p, form)
  }

  // Statement rules

  function Single(e: Element, t: Triple): Outcome {
    Ok(Some(Proposal(e, {t})))
  }

  function DeclaresStep(graph: set<Triple>, consumed: set<Triple>, t: Triple, rule: StatementRule): Outcome
    requires rule.Declares?
  {
    if t in consumed then Ok(None)
    else
      var isData := Has(graph, t.s, TYPE, DATATYPE_PROPERTY);
      Single(Declaration(if isData then rule.dataKind else rule.kind, t.s, t.o), t)
  }

  predicate PassesTest(n: Node, test: SubjectTest) {
    match test
    case AnySubject => true
    case IriSubject => n.IRI?
    case OtherSubject => !n.IRI?
  }

  function ChosenKind(graph: set<Triple>, t: Triple, choice: Choice): Result<Kind, LiftError> {
    match choice
    case Always(kind) => Ok(kind)
    case ByDataProperty(kind, dataKind, iriOperand) =>
      if !Has(graph, t.s, TYPE, DATATYPE_PROPERTY) then Ok(kind)
      else if !t.s.IRI? || (iriOperand && !t.o.IRI?) then Err(Malformed)
      else Ok(dataKind)
    case ByDatatype(kind, dataKind) =>
      var isDatatype := Has(graph, t.s, TYPE, DATATYPE);
      if isDatatype && Has(graph, t.s, TYPE, CLASS) then Err(Malformed)
      else if !isDatatype then Ok(kind)
      else if !t.s.IRI? then Err(Malformed)
      else Ok(dataKind)
  }

  function StatesStep(graph: set<Triple>, consumed: set<Triple>, t: Triple, rule: StatementRule): Outcome
    requires rule.States?
  {
    if (rule.rechecks && t in consumed) || !PassesTest(t.s, rule.subjects) then Ok(None)
    else if !IsResource(t.o) then Err(Malformed)
    else
      match ChosenKind(graph, t, rule.choice)
      case Err(e) => Err(e)
      case Ok(kind) => Single(BinaryAxiom(kind, t.s, t.p, t.o), t)
  }

  // The list property of an n-ary difference: owl:members, or the older
  // owl:distinctMembers, but not both.
  function MembersProperty(graph: set<Triple>, s: Node, legacy: bool): Result<Node, LiftError> {
    if !legacy then Ok(MEMBERS)
    else
      var current, older := HasAny(graph, s, MEMBERS), HasAny(graph, s, DISTINCT_MEMBERS);
      if current && older then Err(Malformed)
      else Ok(if current then MEMBERS else DISTINCT_MEMBERS)
  }

  predicate AllDataProperties(graph: set<Triple>, cells: seq<Cell>) {
    cells != [] && forall i :: 0 <= i < |cells| ==> Has(graph, cells[i].value, TYPE, DATATYPE_PROPERTY)
  }

  // Whatever the list property was, the element prints owl:members.
  function OwnsMembersStep(graph: set<Triple>, consumed: set<Triple>, t: Triple, rule: StatementRule): Outcome
    requires rule.OwnsMembers?
  {
    if t in consumed then Ok(None)
    else
      match MembersProperty(graph, t.s, rule.legacy)
      case Err(e) => Err(e)
      case Ok(p) =>
        match ListAt(graph, consumed, t.s, p)
        case Err(e) => Err(e)
        case Ok((head, cells)) =>
          if !AllResources(cells) || |cells| <= 2 then Err(Malformed)
          else
            Ok(Some(Proposal(
              ListOwner(if AllDataProperties(graph, cells) then rule.dataKind else rule.kind, t.s, Some(t.o), MEMBERS, SeqOf(cells), []),
              {t, Triple(t.s, p, head)} + CellTriples(cells))))
  }

  function AssertsClassStep(consumed: set<Triple>, known: set<Node>, t: Triple): Outcome {
    if t in consumed || !IsResource(t.o) || t.o !in known then Ok(None)
    else Single(BinaryAxiom(Binary(ClassAssertion), t.s, t.p, t.o), t)
  }

  function AssertsPropertyStep(known: set<Node>, t: Triple, data: bool): Outcome {
    if IsResource(t.o) == data || t.p !in known || (if data then !t.p.IRI? else !IsResource(t.p)) then Ok(None)
    else Single(BinaryAxiom(if data then Binary(DataPropertyAssertion) else Binary(ObjectPropertyAssertion), t.s, t.p, t.o), t)
  }

  function AssertsNegationStep(graph: set<Triple>, consumed: set<Triple>, known: set<Node>, t: Triple,
      data: bool): Outcome {
    if t in consumed then Ok(None)
    else
      var individual, value := HasAny(graph, t.s, TARGET_INDIVIDUAL), HasAny(graph, t.s, TARGET_VALUE);
      if individual && value then Err(Malformed)
      else if (if data then !value else !individual) then Ok(None)
      else
        var target := if data then TARGET_VALUE else TARGET_INDIVIDUAL;
        match (Value(graph, t.s, SOURCE_INDIVIDUAL), Value(graph, t.s, ASSERTION_PROPERTY), Value(graph, t.s, target))
        case (Some(source), Some(property), Some(o)) =>
          if !IsResource(source) || IsResource(o) == data then Err(Malformed)
          else if property !in known || (if data then !property.IRI? else !IsResource(property)) then Ok(None)
          else
            Ok(Some(DescribedProposal(if data then Frame(NegativeDataPropertyAssertion) else Frame(NegativeObjectPropertyAssertion), t.s,
              t.o, [Field(SOURCE_INDIVIDUAL, source), Field(ASSERTION_PROPERTY, property), Field(target, o)])))
        case _ => Err(Malformed)
  }

  function StatementStep(graph: set<Triple>, consumed: set<Triple>, known: set<Node>, t: Triple,
      rule: StatementRule): Outcome {
    match rule
    case Declares(_, _) => DeclaresStep(graph, consumed, t, rule)
    case States(_, _, _) => StatesStep(graph, consumed, t, rule)
    case OwnsMembers(_, _, _) => OwnsMembersStep(graph, consumed, t, rule)
    case AssertsClass => AssertsClassStep(consumed, known, t)
    case AssertsProperty(data) => AssertsPropertyStep(known, t, data)
    case AssertsNegation(data) => AssertsNegationStep(graph, consumed, known, t, data)
  }

  // What a pass needs to know of the elements lifted before it began.
  function Known(pass: Pass, elements: seq<Element>): set<Node> {
    if pass.BySubject? then {}
    else
      match pass.claim
      case AssertsClass => KnownClassExpressions(elements)
      case AssertsProperty(data) => if data then KnownDataProperties(elements) else KnownObjectProperties(elements)
      case AssertsNegation(data) => if data then KnownDataProperties(elements) else KnownObjectProperties(elements)
      case _ => {}
  }

  function Step(graph: set<Triple>, consumed: set<Triple>, known: set<Node>, pass: Pass, item: Item): Outcome {
    match (pass, item)
    case (BySubject(p, rule), Named(s)) => SubjectStep(graph, consumed, s, p, rule)
    case (ByStatement(_, claim), Stated(t)) => StatementStep(graph, consumed, known, t, claim)
    case _ => Ok(None)
  }

  // The table, in the order of the passes

  function Declaring(name: Node, kind: Kind): Pass {
    ByStatement(WithType(name), Declares(kind, kind))
  }

  function Stating(p: Node, choice: Choice): Pass {
    ByStatement(WithProperty(p), States(choice, AnySubject, false))
  }

  function Counting(word: Word, form: Form): Pass {
    BySubject(Owl(word), Restricts(form))
  }

  function ExpressionPasses(): seq<Pass> {
    [
      BySubject(Owl(IntersectionOf), OwnsList(Some(DATATYPE), Listing(DataIntersectionOf), false, 2)),
      BySubject(Owl(IntersectionOf), OwnsList(Some(CLASS), Listing(ObjectIntersectionOf), false, 2)),
      BySubject(Owl(UnionOf), OwnsList(Some(DATATYPE), Listing(DataUnionOf), false, 2)),
      BySubject(Owl(UnionOf), OwnsList(Some(CLASS), Listing(ObjectUnionOf), false, 2)),
      BySubject(Owl(ComplementOf), HasOperand(DATATYPE, Frame(DataComplementOf))),
      BySubject(Owl(ComplementOf), HasOperand(CLASS, Frame(ObjectComplementOf))),
      BySubject(Owl(OneOf), OwnsList(Some(DATATYPE), Listing(DataOneOf), true, 1)),
      BySubject(Owl(OneOf), OwnsList(Some(CLASS), Listing(ObjectOneOf), false, 1)),
      BySubject(WITH_RESTRICTIONS, HasFacets)
    ]
  }

  function RestrictionPasses(): seq<Pass> {
    [
      BySubject(Owl(HasSelf), Restricts(SelfForm)),
      BySubject(Owl(HasValue), Restricts(ValueForm)),
      Counting(MinQualifiedCardinality, Qualified(Frame(ObjectMinCardinalityQualified),
        Frame(DataMinCardinalityQualified))),
      Counting(MaxQualifiedCardinality, Qualified(Frame(ObjectMaxCardinalityQualified),
        Frame(DataMaxCardinalityQualified))),
      Counting(QualifiedCardinality, Qualified(Frame(ObjectExactCardinalityQualified),
        Frame(DataExactCardinalityQualified))),
      Counting(MinCardinality, Unqualified(Frame(ObjectMinCardinality), Frame(DataMinCardinality))),
      Counting(MaxCardinality, Unqualified(Frame(ObjectMaxCardinality), Frame(DataMaxCardinality))),
      Counting(Cardinality, Unqualified(Frame(ObjectExactCardinality), Frame(DataExactCardinality))),
      Counting(SomeValuesFrom, Filler(Frame(ObjectSomeValuesFrom), Frame(DataSomeValuesFrom),
        Listing(DataSomeValuesFromNary))),
      Counting(AllValuesFrom, Filler(Frame(ObjectAllValuesFrom), Frame(DataAllValuesFrom),
        Listing(DataAllValuesFromNary)))
    ]
  }

  function ListAxiomPasses(): seq<Pass> {
    [
      ByStatement(WithProperty(Owl(InverseOf)), States(Always(Binary(InverseObjectProperties)), IriSubject, true)),
      ByStatement(WithProperty(Owl(InverseOf)), States(Always(Binary(ObjectInverseOf)), OtherSubject, true)),
      BySubject(Owl(DisjointUnionOf), OwnsList(None, Listing(DisjointUnion), false, 2)),
      ByStatement(WithType(Owl(AllDisjointClasses)), OwnsMembers(Listing(DisjointClassesNary),
        Listing(DisjointClassesNary), false)),
      ByStatement(WithType(Owl(AllDisjointProperties)), OwnsMembers(Listing(DisjointObjectPropertiesNary),
        Listing(DisjointDataPropertiesNary), false))
    ]
  }

  function Differences(): Pass {
    ByStatement(WithType(ALL_DIFFERENT), OwnsMembers(Listing(DifferentIndividualsNary),
      Listing(DifferentIndividualsNary), true))
  }

  function AxiomPasses(): seq<Pass> {
    [
      Stating(Owl(DisjointWith), Always(Binary(DisjointClasses))),
      Stating(Rdfs(Word.SubClassOf), Always(Binary(BinaryClass.SubClassOf))),
      Stating(Rdfs(SubPropertyOf), ByDataProperty(Binary(SubObjectPropertyOf), Binary(SubDataPropertyOf), true)),
      BySubject(Owl(PropertyChainAxiom), OwnsList(None, Listing(SubObjectPropertyOfChain), false, 2)),
      Stating(Rdfs(Domain), ByDataProperty(Binary(ObjectPropertyDomain), Binary(DataPropertyDomain), false)),
      Stating(Rdfs(Range), ByDataProperty(Binary(ObjectPropertyRange), Binary(DataPropertyRange), false)),
      Stating(Owl(PropertyDisjointWith), ByDataProperty(Binary(DisjointObjectProperties),
        Binary(DisjointDataProperties), true)),
      ByStatement(WithProperty(Owl(EquivalentClass)), States(ByDatatype(Binary(EquivalentClasses),
        Binary(DatatypeDefinition)), AnySubject, true)),
      ByStatement(WithProperty(Owl(EquivalentProperty)),
        States(ByDataProperty(Binary(EquivalentObjectProperties), Binary(EquivalentDataProperties), true), AnySubject, true)),
      BySubject(Owl(Word.HasKey), OwnsList(None, Listing(ListClass.HasKey), false, 1)),
      Stating(Owl(DifferentFrom), Always(Binary(DifferentIndividuals))),
      Stating(Owl(SameAs), Always(Binary(SameIndividual)))
    ]
  }

  function CharacteristicPasses(): seq<Pass> {
    [
      Declaring(Owl(InverseFunctionalProperty), Entity(InverseFunctionalObjectProperty)),
      Declaring(Owl(ReflexiveProperty), Entity(ReflexiveObjectProperty)),
      Declaring(Owl(IrreflexiveProperty), Entity(IrreflexiveObjectProperty)),
      Declaring(Owl(SymmetricProperty), Entity(SymmetricObjectProperty)),
      Declaring(Owl(AsymmetricProperty), Entity(AsymmetricObjectProperty)),
      Declaring(Owl(TransitiveProperty), Entity(TransitiveObjectProperty)),
      ByStatement(WithType(FUNCTIONAL_PROPERTY), Declares(Entity(FunctionalObjectProperty),
        Entity(FunctionalDataProperty)))
    ]
  }

  function DeclarationPasses(): seq<Pass> {
    [
      Declaring(DATATYPE, Entity(DeclarationDatatype)),
      Declaring(CLASS, Entity(DeclarationClass)),
      Declaring(Owl(ObjectProperty), Entity(DeclarationObjectProperty)),
      Declaring(DATATYPE_PROPERTY, Entity(DeclarationDataProperty)),
      Declaring(Owl(AnnotationProperty), Entity(DeclarationAnnotationProperty)),
      Declaring(Owl(Word.NamedIndividual), Entity(EntityClass.NamedIndividual))
    ]
  }

  function AssertionPasses(): seq<Pass> {
    [
      ByStatement(AnyType, AssertsClass),
      ByStatement(Unclaimed, AssertsProperty(false)),
      ByStatement(WithType(NEGATIVE_ASSERTION), AssertsNegation(false)),
      ByStatement(Unclaimed, AssertsProperty(true)),
      ByStatement(WithType(NEGATIVE_ASSERTION), AssertsNegation(true))
    ]
  }
}
