// The classes of structural elements, with what each of them prints and the
// checks its values have to pass.
module Kinds {
  import opened Rdf
  import opened RdfLists

  const RDFS_NS := "http://www.w3.org/2000/01/rdf-schema#"
  const OWL_NS := "http://www.w3.org/2002/07/owl#"
  const XSD_NS := "http://www.w3.org/2001/XMLSchema#"

  const TYPE := IRI(RDF_NS + "type")
  const DATATYPE := Rdfs(Datatype)
  const CLASS := Owl(Class)
  const RESTRICTION := Owl(Restriction)
  const ALL_DIFFERENT := Owl(AllDifferent)
  const NEGATIVE_ASSERTION := Owl(NegativePropertyAssertion)
  const DATATYPE_PROPERTY := Owl(DatatypeProperty)
  const FUNCTIONAL_PROPERTY := Owl(FunctionalProperty)

  const MEMBERS := Owl(Members)
  const DISTINCT_MEMBERS := Owl(DistinctMembers)
  const ON_PROPERTY := Owl(OnProperty)
  const ON_PROPERTIES := Owl(OnProperties)
  const ON_CLASS := Owl(OnClass)
  const ON_DATA_RANGE := Owl(OnDataRange)
  const ON_DATATYPE := Owl(OnDatatype)
  const WITH_RESTRICTIONS := Owl(WithRestrictions)
  const SOURCE_INDIVIDUAL := Owl(SourceIndividual)
  const ASSERTION_PROPERTY := Owl(AssertionProperty)
  const TARGET_INDIVIDUAL := Owl(TargetIndividual)
  const TARGET_VALUE := Owl(TargetValue)

  const TRUE_BOOLEAN := Literal("\"true\"^^<" + XSD_NS + "boolean>")
  const NON_NEGATIVE_INTEGER := "\"^^<" + XSD_NS + "nonNegativeInteger>"

  // The words of the OWL 2 and RDF Schema vocabularies that the mapping uses.
  datatype Word =
    | AllDifferent | AllDisjointClasses | AllDisjointProperties | AllValuesFrom | AnnotationProperty
    | AssertionProperty | AsymmetricProperty | Cardinality | Class | ComplementOf | Datatype | DatatypeProperty
    | DifferentFrom | DisjointUnionOf | DisjointWith | DistinctMembers | Domain | EquivalentClass
    | EquivalentProperty | FunctionalProperty | HasKey | HasSelf | HasValue | IntersectionOf
    | InverseFunctionalProperty | InverseOf | IrreflexiveProperty | MaxCardinality | MaxQualifiedCardinality
    | Members | MinCardinality | MinQualifiedCardinality | NamedIndividual | NegativePropertyAssertion | Nothing
    | ObjectProperty | OnClass | OnDataRange | OnDatatype | OnProperties | OnProperty | OneOf | PropertyChainAxiom
    | PropertyDisjointWith | QualifiedCardinality | Range | ReflexiveProperty | Restriction | SameAs
    | SomeValuesFrom | SourceIndividual | SubClassOf | SubPropertyOf | SymmetricProperty | TargetIndividual
    | TargetValue | Thing | TransitiveProperty | UnionOf | WithRestrictions

  // Words by the length of their local names.
  datatype Band = Shortest | Short | Medium | Long | Longer | Eighteen | Longest

  function BandOf(word: Word): Band {
    match word
    case Class | Domain | HasKey | HasSelf | Members | Nothing | OnClass | OneOf | Range | SameAs | Thing |
        UnionOf => Shortest
    case Cardinality | Datatype | HasValue | InverseOf | OnDataRange | OnDatatype | OnProperty | Restriction |
        SubClassOf | TargetValue => Short
    case AllDifferent | AllValuesFrom | ComplementOf | DifferentFrom | DisjointWith | OnProperties |
        SubPropertyOf => Medium
    case DisjointUnionOf | DistinctMembers | EquivalentClass | IntersectionOf | MaxCardinality |
        MinCardinality | NamedIndividual | ObjectProperty | SomeValuesFrom => Long
    case AssertionProperty | DatatypeProperty | ReflexiveProperty | SourceIndividual | SymmetricProperty |
        TargetIndividual | WithRestrictions => Longer
    case AllDisjointClasses | AnnotationProperty | AsymmetricProperty | EquivalentProperty |
        FunctionalProperty | PropertyChainAxiom | TransitiveProperty => Eighteen
    case AllDisjointProperties | InverseFunctionalProperty | IrreflexiveProperty | MaxQualifiedCardinality |
        MinQualifiedCardinality | NegativePropertyAssertion | PropertyDisjointWith | QualifiedCardinality => Longest
  }

  function Local(word: Word): string {
    match BandOf(word)
    case Shortest => ShortestName(word)
    case Short => ShortName(word)
    case Medium => MediumName(word)
    case Long => LongName(word)
    case Longer => LongerName(word)
    case Eighteen => EighteenName(word)
    case Longest => LongestName(word)
  }

  function ShortestName(word: Word): string {
    match word
    case Class => "Class"
    case Domain => "domain"
    case HasKey => "hasKey"
    case HasSelf => "hasSelf"
    case Members => "members"
    case Nothing => "Nothing"
    case OnClass => "onClass"
    case OneOf => "oneOf"
    case Range => "range"
    case SameAs => "sameAs"
    case Thing => "Thing"
    case _ => "unionOf"
  }

  function ShortName(word: Word): string {
    match word
    case Cardinality => "cardinality"
    case Datatype => "Datatype"
    case HasValue => "hasValue"
    case InverseOf => "inverseOf"
    case OnDataRange => "onDataRange"
    case OnDatatype => "onDatatype"
    case OnProperty => "onProperty"
    case Restriction => "Restriction"
    case SubClassOf => "subClassOf"
    case _ => "targetValue"
  }

  function MediumName(word: Word): string {
    match word
    case AllDifferent => "AllDifferent"
    case AllValuesFrom => "allValuesFrom"
    case ComplementOf => "complementOf"
    case DifferentFrom => "differentFrom"
    case DisjointWith => "disjointWith"
    case OnProperties => "onProperties"
    case _ => "subPropertyOf"
  }

  function LongName(word: Word): string {
    match word
    case DisjointUnionOf => "disjointUnionOf"
    case DistinctMembers => "distinctMembers"
    case EquivalentClass => "equivalentClass"
    case IntersectionOf => "intersectionOf"
    case MaxCardinality => "maxCardinality"
    case MinCardinality => "minCardinality"
    case NamedIndividual => "NamedIndividual"
    case ObjectProperty => "ObjectProperty"
    case _ => "someValuesFrom"
  }

  function LongerName(word: Word): string {
    match word
    case AssertionProperty => "assertionProperty"
    case DatatypeProperty => "DatatypeProperty"
    case ReflexiveProperty => "ReflexiveProperty"
    case SourceIndividual => "sourceIndividual"
    case SymmetricProperty => "SymmetricProperty"
    case TargetIndividual => "targetIndividual"
    case _ => "withRestrictions"
  }

  function EighteenName(word: Word): string {
    match word
    case AllDisjointClasses => "AllDisjointClasses"
    case AnnotationProperty => "AnnotationProperty"
    case AsymmetricProperty => "AsymmetricProperty"
    case EquivalentProperty => "equivalentProperty"
    case FunctionalProperty => "FunctionalProperty"
    case PropertyChainAxiom => "propertyChainAxiom"
    case _ => "TransitiveProperty"
  }

  function LongestName(word: Word): string {
    match word
    case AllDisjointProperties => "AllDisjointProperties"
    case InverseFunctionalProperty => "InverseFunctionalProperty"
    case IrreflexiveProperty => "IrreflexiveProperty"
    case MaxQualifiedCardinality => "maxQualifiedCardinality"
    case MinQualifiedCardinality => "minQualifiedCardinality"
    case NegativePropertyAssertion => "NegativePropertyAssertion"
    case PropertyDisjointWith => "propertyDisjointWith"
    case _ => "qualifiedCardinality"
  }

  function Owl(word: Word): Node {
    IRI(OWL_NS + Local(word))
  }

  function Rdfs(word: Word): Node {
    IRI(RDFS_NS + Local(word))
  }

  predicate IsNonNegativeInteger(n: Node) {
    && n.Literal? && |n.n3| >= |NON_NEGATIVE_INTEGER|
    && n.n3[|n.n3| - |NON_NEGATIVE_INTEGER|..] == NON_NEGATIVE_INTEGER
  }

  // What a position of an element may hold.
  datatype Test = Resource | Iri | Blank | LiteralNode | Count | TrueBoolean

  predicate Meets(n: Node, test: Test) {
    match test
    case Resource => IsResource(n)
    case Iri => n.IRI?
    case Blank => n.BNode?
    case LiteralNode => n.Literal?
    case Count => IsNonNegativeInteger(n)
    case TrueBoolean => n == TRUE_BOOLEAN
  }

  datatype Slot = Slot(property: Node, test: Test)

  // What a class prints: a type triple, one triple, a typed node with one
  // value for each slot, or a list of operands on a node.
  datatype Template =
    | TypeOnly(rdfType: Node)
    | OneTriple(only: Option<Node>, subject: Test, operand: Test)
    | Slots(rdfType: Node, slots: seq<Slot>)
    | Operands(declared: Option<Node>, property: Node, members: Test, minimum: nat, slots: seq<Slot>)
    | FacetRows

  datatype EntityClass =
    | DeclarationDatatype | DeclarationClass | DeclarationObjectProperty | DeclarationDataProperty
    | DeclarationAnnotationProperty | NamedIndividual | InverseFunctionalObjectProperty | ReflexiveObjectProperty
    | IrreflexiveObjectProperty | SymmetricObjectProperty | AsymmetricObjectProperty | TransitiveObjectProperty
    | FunctionalObjectProperty | FunctionalDataProperty

  datatype BinaryClass =
    | InverseObjectProperties | ObjectInverseOf | DisjointClasses | SubClassOf | SubObjectPropertyOf
    | SubDataPropertyOf | ObjectPropertyDomain | DataPropertyDomain | ObjectPropertyRange | DataPropertyRange
    | DisjointObjectProperties | DisjointDataProperties | EquivalentClasses | DatatypeDefinition
    | EquivalentObjectProperties | EquivalentDataProperties | DifferentIndividuals | SameIndividual
    | ClassAssertion | ObjectPropertyAssertion | DataPropertyAssertion

  datatype FrameClass =
    | DataComplementOf | ObjectComplementOf | ObjectHasSelf | DataHasValue | ObjectHasValue | ObjectMinCardinality
    | ObjectMinCardinalityQualified | ObjectMaxCardinality | ObjectMaxCardinalityQualified | ObjectExactCardinality
    | ObjectExactCardinalityQualified | ObjectSomeValuesFrom | ObjectAllValuesFrom | DataMinCardinality
    | DataMinCardinalityQualified | DataMaxCardinality | DataMaxCardinalityQualified | DataExactCardinality
    | DataExactCardinalityQualified | DataSomeValuesFrom | DataAllValuesFrom | NegativeObjectPropertyAssertion
    | NegativeDataPropertyAssertion

  datatype ListClass =
    | DataIntersectionOf | ObjectIntersectionOf | DataUnionOf | ObjectUnionOf | DataOneOf | ObjectOneOf
    | DataSomeValuesFromNary | DataAllValuesFromNary | DisjointUnion | DisjointClassesNary
    | DisjointObjectPropertiesNary | DisjointDataPropertiesNary | DifferentIndividualsNary
    | SubObjectPropertyOfChain | HasKey

  datatype Kind =
    | Entity(entity: EntityClass)
    | Binary(binary: BinaryClass)
    | Frame(frame: FrameClass)
    | Listing(listing: ListClass)
    | DatatypeRestriction

  function TemplateOf(kind: Kind): Template {
    match kind
    case Entity(c) => TypeOnly(EntityType(c))
    case Binary(c) => BinaryTemplate(c)
    case Frame(c) => FrameTemplate(c)
    case Listing(c) => ListTemplate(c)
    case DatatypeRestriction => FacetRows
  }

  function EntityType(c: EntityClass): Node {
    match c
    case DeclarationDatatype => DATATYPE
    case DeclarationClass => CLASS
    case DeclarationObjectProperty => Owl(ObjectProperty)
    case DeclarationDataProperty => DATATYPE_PROPERTY
    case DeclarationAnnotationProperty => Owl(AnnotationProperty)
    case NamedIndividual => Owl(Word.NamedIndividual)
    case InverseFunctionalObjectProperty => Owl(InverseFunctionalProperty)
    case ReflexiveObjectProperty => Owl(ReflexiveProperty)
    case IrreflexiveObjectProperty => Owl(IrreflexiveProperty)
    case SymmetricObjectProperty => Owl(SymmetricProperty)
    case AsymmetricObjectProperty => Owl(AsymmetricProperty)
    case TransitiveObjectProperty => Owl(TransitiveProperty)
    case FunctionalObjectProperty => FUNCTIONAL_PROPERTY
    case FunctionalDataProperty => FUNCTIONAL_PROPERTY
  }

  function BinaryTemplate(c: BinaryClass): Template {
    match c
    case InverseObjectProperties => OneTriple(Some(Owl(InverseOf)), Iri, Resource)
    case ObjectInverseOf => OneTriple(Some(Owl(InverseOf)), Blank, Resource)
    case DisjointClasses => OneTriple(Some(Owl(DisjointWith)), Resource, Resource)
    case SubClassOf => OneTriple(Some(Rdfs(Word.SubClassOf)), Resource, Resource)
    case SubObjectPropertyOf => OneTriple(Some(Rdfs(SubPropertyOf)), Resource, Resource)
    case SubDataPropertyOf => OneTriple(Some(Rdfs(SubPropertyOf)), Iri, Iri)
    case ObjectPropertyDomain => OneTriple(Some(Rdfs(Domain)), Resource, Resource)
    case DataPropertyDomain => OneTriple(Some(Rdfs(Domain)), Iri, Resource)
    case ObjectPropertyRange => OneTriple(Some(Rdfs(Range)), Resource, Resource)
    case DataPropertyRange => OneTriple(Some(Rdfs(Range)), Iri, Resource)
    case DisjointObjectProperties => OneTriple(Some(Owl(PropertyDisjointWith)), Resource, Resource)
    case DisjointDataProperties => OneTriple(Some(Owl(PropertyDisjointWith)), Iri, Iri)
    case EquivalentClasses => OneTriple(Some(Owl(EquivalentClass)), Resource, Resource)
    case DatatypeDefinition => OneTriple(Some(Owl(EquivalentClass)), Iri, Resource)
    case EquivalentObjectProperties => OneTriple(Some(Owl(EquivalentProperty)), Resource, Resource)
    case EquivalentDataProperties => OneTriple(Some(Owl(EquivalentProperty)), Iri, Iri)
    case DifferentIndividuals => OneTriple(Some(Owl(DifferentFrom)), Resource, Resource)
    case SameIndividual => OneTriple(Some(Owl(SameAs)), Resource, Resource)
    case ClassAssertion => OneTriple(Some(TYPE), Resource, Resource)
    case ObjectPropertyAssertion => OneTriple(None, Resource, Resource)
    case DataPropertyAssertion => OneTriple(None, Resource, LiteralNode)
  }

  function FrameTemplate(c: FrameClass): Template {
    match c
    case DataComplementOf => Slots(DATATYPE, [Slot(Owl(ComplementOf), Resource)])
    case ObjectComplementOf => Slots(CLASS, [Slot(Owl(ComplementOf), Resource)])
    case ObjectHasSelf => Slots(RESTRICTION, [Slot(ON_PROPERTY, Iri), Slot(Owl(HasSelf), TrueBoolean)])
    case DataHasValue => Slots(RESTRICTION, [Slot(ON_PROPERTY, Iri), Slot(Owl(HasValue), LiteralNode)])
    case ObjectHasValue => Slots(RESTRICTION, [Slot(ON_PROPERTY, Iri), Slot(Owl(HasValue), Resource)])
    case ObjectMinCardinality => Slots(RESTRICTION, [Slot(ON_PROPERTY, Iri), Slot(Owl(MinCardinality), Count)])
    case ObjectMinCardinalityQualified =>
      Slots(RESTRICTION, [Slot(ON_PROPERTY, Iri), Slot(Owl(MinQualifiedCardinality), Count), Slot(ON_CLASS,
        Resource)])
    case ObjectMaxCardinality => Slots(RESTRICTION, [Slot(ON_PROPERTY, Iri), Slot(Owl(MaxCardinality), Count)])
    case ObjectMaxCardinalityQualified =>
      Slots(RESTRICTION, [Slot(ON_PROPERTY, Iri), Slot(Owl(MaxQualifiedCardinality), Count), Slot(ON_CLASS,
        Resource)])
    case ObjectExactCardinality => Slots(RESTRICTION, [Slot(ON_PROPERTY, Iri), Slot(Owl(Cardinality), Count)])
    case ObjectExactCardinalityQualified =>
      Slots(RESTRICTION, [Slot(ON_PROPERTY, Iri), Slot(Owl(QualifiedCardinality), Count), Slot(ON_CLASS, Resource)])
    case ObjectSomeValuesFrom => Slots(RESTRICTION, [Slot(ON_PROPERTY, Iri), Slot(Owl(SomeValuesFrom), Resource)])
    case ObjectAllValuesFrom => Slots(RESTRICTION, [Slot(ON_PROPERTY, Iri), Slot(Owl(AllValuesFrom), Resource)])
    case DataMinCardinality => Slots(RESTRICTION, [Slot(ON_PROPERTY, Iri), Slot(Owl(MinCardinality), Count)])
    case DataMinCardinalityQualified =>
      Slots(RESTRICTION, [Slot(ON_PROPERTY, Iri), Slot(Owl(MinQualifiedCardinality), Count), Slot(ON_DATA_RANGE,
        Resource)])
    case DataMaxCardinality => Slots(RESTRICTION, [Slot(ON_PROPERTY, Iri), Slot(Owl(MaxCardinality), Count)])
    case DataMaxCardinalityQualified =>
      Slots(RESTRICTION, [Slot(ON_PROPERTY, Iri), Slot(Owl(MaxQualifiedCardinality), Count), Slot(ON_DATA_RANGE,
        Resource)])
    case DataExactCardinality => Slots(RESTRICTION, [Slot(ON_PROPERTY, Iri), Slot(Owl(Cardinality), Count)])
    case DataExactCardinalityQualified =>
      Slots(RESTRICTION, [Slot(ON_PROPERTY, Iri), Slot(Owl(QualifiedCardinality), Count), Slot(ON_DATA_RANGE,
        Resource)])
    case DataSomeValuesFrom => Slots(RESTRICTION, [Slot(ON_PROPERTY, Iri), Slot(Owl(SomeValuesFrom), Resource)])
    case DataAllValuesFrom => Slots(RESTRICTION, [Slot(ON_PROPERTY, Iri), Slot(Owl(AllValuesFrom), Resource)])
    case NegativeObjectPropertyAssertion =>
      Slots(NEGATIVE_ASSERTION, [Slot(SOURCE_INDIVIDUAL, Resource), Slot(ASSERTION_PROPERTY, Resource),
        Slot(TARGET_INDIVIDUAL, Resource)])
    case NegativeDataPropertyAssertion =>
      Slots(NEGATIVE_ASSERTION, [Slot(SOURCE_INDIVIDUAL, Resource), Slot(ASSERTION_PROPERTY, Iri),
        Slot(TARGET_VALUE, LiteralNode)])
  }

  function ListTemplate(c: ListClass): Template {
    match c
    case DataIntersectionOf => Operands(Some(DATATYPE), Owl(IntersectionOf), Resource, 2, [])
    case ObjectIntersectionOf => Operands(Some(CLASS), Owl(IntersectionOf), Resource, 2, [])
    case DataUnionOf => Operands(Some(DATATYPE), Owl(UnionOf), Resource, 2, [])
    case ObjectUnionOf => Operands(Some(CLASS), Owl(UnionOf), Resource, 2, [])
    case DataOneOf => Operands(Some(DATATYPE), Owl(OneOf), LiteralNode, 1, [])
    case ObjectOneOf => Operands(Some(CLASS), Owl(OneOf), Resource, 1, [])
    case DataSomeValuesFromNary =>
      Operands(Some(RESTRICTION), ON_PROPERTIES, Iri, 2, [Slot(Owl(SomeValuesFrom), Resource)])
    case DataAllValuesFromNary =>
      Operands(Some(RESTRICTION), ON_PROPERTIES, Iri, 2, [Slot(Owl(AllValuesFrom), Resource)])
    case DisjointUnion => Operands(None, Owl(DisjointUnionOf), Resource, 2, [])
    case DisjointClassesNary => Operands(Some(Owl(AllDisjointClasses)), MEMBERS, Resource, 3, [])
    case DisjointObjectPropertiesNary => Operands(Some(Owl(AllDisjointProperties)), MEMBERS, Resource, 3, [])
    case DisjointDataPropertiesNary => Operands(Some(Owl(AllDisjointProperties)), MEMBERS, Resource, 3, [])
    case DifferentIndividualsNary => Operands(Some(ALL_DIFFERENT), MEMBERS, Resource, 3, [])
    case SubObjectPropertyOfChain => Operands(None, Owl(PropertyChainAxiom), Resource, 2, [])
    case HasKey => Operands(None, Owl(Word.HasKey), Resource, 1, [])
  }

  // The name that elements with equal names are sorted by.
  function ClassName(kind: Kind): string {
    match kind
    case Entity(c) => EntityName(c)
    case Binary(c) => BinaryName(c)
    case Frame(c) => FrameName(c)
    case Listing(c) => ListName(c)
    case DatatypeRestriction => "DatatypeRestriction"
  }

  function EntityName(c: EntityClass): string {
    match c
    case DeclarationDatatype => "DeclarationDatatype"
    case DeclarationClass => "DeclarationClass"
    case DeclarationObjectProperty => "DeclarationObjectProperty"
    case DeclarationDataProperty => "DeclarationDataProperty"
    case DeclarationAnnotationProperty => "DeclarationAnnotationProperty"
    case NamedIndividual => "NamedIndividual"
    case InverseFunctionalObjectProperty => "InverseFunctionalObjectProperty"
    case ReflexiveObjectProperty => "ReflexiveObjectProperty"
    case IrreflexiveObjectProperty => "IrreflexiveObjectProperty"
    case SymmetricObjectProperty => "SymmetricObjectProperty"
    case AsymmetricObjectProperty => "AsymmetricObjectProperty"
    case TransitiveObjectProperty => "TransitiveObjectProperty"
    case FunctionalObjectProperty => "FunctionalObjectProperty"
    case FunctionalDataProperty => "FunctionalDataProperty"
  }

  function BinaryName(c: BinaryClass): string {
    match c
    case InverseObjectProperties => "InverseObjectProperties"
    case ObjectInverseOf => "ObjectInverseOf"
    case DisjointClasses => "DisjointClasses"
    case SubClassOf => "SubClassOf"
    case SubObjectPropertyOf => "SubObjectPropertyOf"
    case SubDataPropertyOf => "SubDataPropertyOf"
    case ObjectPropertyDomain => "ObjectPropertyDomain"
    case DataPropertyDomain => "DataPropertyDomain"
    case ObjectPropertyRange => "ObjectPropertyRange"
    case DataPropertyRange => "DataPropertyRange"
    case DisjointObjectProperties => "DisjointObjectProperties"
    case DisjointDataProperties => "DisjointDataProperties"
    case EquivalentClasses => "EquivalentClasses"
    case DatatypeDefinition => "DatatypeDefinition"
    case EquivalentObjectProperties => "EquivalentObjectProperties"
    case EquivalentDataProperties => "EquivalentDataProperties"
    case DifferentIndividuals => "DifferentIndividuals"
    case SameIndividual => "SameIndividual"
    case ClassAssertion => "ClassAssertion"
    case ObjectPropertyAssertion => "ObjectPropertyAssertion"
    case DataPropertyAssertion => "DataPropertyAssertion"
  }

  function FrameName(c: FrameClass): string {
    match c
    case DataComplementOf => "DataComplementOf"
    case ObjectComplementOf => "ObjectComplementOf"
    case ObjectHasSelf => "ObjectHasSelf"
    case DataHasValue => "DataHasValue"
    case ObjectHasValue => "ObjectHasValue"
    case ObjectMinCardinality => "ObjectMinCardinality"
    case ObjectMinCardinalityQualified => "ObjectMinCardinalityQualified"
    case ObjectMaxCardinality => "ObjectMaxCardinality"
    case ObjectMaxCardinalityQualified => "ObjectMaxCardinalityQualified"
    case ObjectExactCardinality => "ObjectExactCardinality"
    case ObjectExactCardinalityQualified => "ObjectExactCardinalityQualified"
    case ObjectSomeValuesFrom => "ObjectSomeValuesFrom"
    case ObjectAllValuesFrom => "ObjectAllValuesFrom"
    case DataMinCardinality => "DataMinCardinality"
    case DataMinCardinalityQualified => "DataMinCardinalityQualified"
    case DataMaxCardinality => "DataMaxCardinality"
    case DataMaxCardinalityQualified => "DataMaxCardinalityQualified"
    case DataExactCardinality => "DataExactCardinality"
    case DataExactCardinalityQualified => "DataExactCardinalityQualified"
    case DataSomeValuesFrom => "DataSomeValuesFrom"
    case DataAllValuesFrom => "DataAllValuesFrom"
    case NegativeObjectPropertyAssertion => "NegativeObjectPropertyAssertion"
    case NegativeDataPropertyAssertion => "NegativeDataPropertyAssertion"
  }

  function ListName(c: ListClass): string {
    match c
    case DataIntersectionOf => "DataIntersectionOf"
    case ObjectIntersectionOf => "ObjectIntersectionOf"
    case DataUnionOf => "DataUnionOf"
    case ObjectUnionOf => "ObjectUnionOf"
    case DataOneOf => "DataOneOf"
    case ObjectOneOf => "ObjectOneOf"
    case DataSomeValuesFromNary => "DataSomeValuesFromNary"
    case DataAllValuesFromNary => "DataAllValuesFromNary"
    case DisjointUnion => "DisjointUnion"
    case DisjointClassesNary => "DisjointClassesNary"
    case DisjointObjectPropertiesNary => "DisjointObjectPropertiesNary"
    case DisjointDataPropertiesNary => "DisjointDataPropertiesNary"
    case DifferentIndividualsNary => "DifferentIndividualsNary"
    case SubObjectPropertyOfChain => "SubObjectPropertyOfChain"
    case HasKey => "HasKey"
  }

  // Reading a name back: its length and one or two letters tell the word.

  function ShortestWord(s: string): Word
    requires 5 <= |s| < 8
  {
    match |s|
    case 5 => if s[0] == 'C' then Class else if s[0] == 'T' then Thing else if s[0] == 'o' then OneOf else Range
    case 6 => if s[0] == 'd' then Domain else if s[0] == 'h' then Word.HasKey else SameAs
    case _ =>
      if s[0] == 'N' then Nothing else if s[0] == 'h' then HasSelf else if s[0] == 'm' then Members
      else if s[0] == 'o' then OnClass else UnionOf
  }

  lemma ShortestRead(word: Word)
    requires BandOf(word) == Shortest
    ensures 5 <= |ShortestName(word)| < 8 && ShortestWord(ShortestName(word)) == word
  {
  }

  function ShortWord(s: string): Word
    requires 8 <= |s| < 12
  {
    match |s|
    case 8 => if s[0] == 'D' then Datatype else HasValue
    case 9 => InverseOf
    case 10 => if s[0] == 's' then Word.SubClassOf else if s[2] == 'D' then OnDatatype else OnProperty
    case _ =>
      if s[0] == 'R' then Restriction else if s[0] == 'c' then Cardinality
      else if s[0] == 'o' then OnDataRange else TargetValue
  }

  lemma ShortRead(word: Word)
    requires BandOf(word) == Short
    ensures 8 <= |ShortName(word)| < 12 && ShortWord(ShortName(word)) == word
  {
  }

  function MediumWord(s: string): Word
    requires 12 <= |s| < 14
  {
    match |s|
    case 12 =>
      if s[0] == 'A' then AllDifferent else if s[0] == 'c' then ComplementOf
      else if s[0] == 'd' then DisjointWith else OnProperties
    case _ => if s[0] == 'a' then AllValuesFrom else if s[0] == 'd' then DifferentFrom else SubPropertyOf
  }

  lemma MediumRead(word: Word)
    requires BandOf(word) == Medium
    ensures 12 <= |MediumName(word)| < 14 && MediumWord(MediumName(word)) == word
  {
  }

  function LongWord(s: string): Word
    requires 14 <= |s| < 16
  {
    match |s|
    case 14 =>
      if s[0] == 'O' then ObjectProperty else if s[0] == 'i' then IntersectionOf
      else if s[0] == 's' then SomeValuesFrom else if s[1] == 'a' then MaxCardinality else MinCardinality
    case _ =>
      if s[0] == 'N' then Word.NamedIndividual else if s[0] == 'e' then EquivalentClass
      else if s[3] == 'j' then DisjointUnionOf else DistinctMembers
  }

  lemma LongRead(word: Word)
    requires BandOf(word) == Long
    ensures 14 <= |LongName(word)| < 16 && LongWord(LongName(word)) == word
  {
  }

  function LongerWord(s: string): Word
    requires 16 <= |s| < 18
  {
    match |s|
    case 16 =>
      if s[0] == 'D' then DatatypeProperty else if s[0] == 's' then SourceIndividual
      else if s[0] == 't' then TargetIndividual else WithRestrictions
    case _ => if s[0] == 'R' then ReflexiveProperty else if s[0] == 'S' then SymmetricProperty else AssertionProperty
  }

  lemma LongerRead(word: Word)
    requires BandOf(word) == Longer
    ensures 16 <= |LongerName(word)| < 18 && LongerWord(LongerName(word)) == word
  {
  }

  function EighteenWord(s: string): Word
    requires 18 <= |s| < 19
  {
    if s[0] == 'F' then FunctionalProperty else if s[0] == 'T' then TransitiveProperty
    else if s[0] == 'e' then EquivalentProperty else if s[0] == 'p' then PropertyChainAxiom
    else if s[1] == 'l' then AllDisjointClasses else if s[1] == 'n' then AnnotationProperty else AsymmetricProperty
  }

  lemma EighteenRead(word: Word)
    requires BandOf(word) == Eighteen
    ensures 18 <= |EighteenName(word)| < 19 && EighteenWord(EighteenName(word)) == word
  {
    var s := EighteenName(word);
    assert |s| == 18;
  }

  function LongestWord(s: string): Word
    requires 19 <= |s|
  {
    match |s|
    case 19 => IrreflexiveProperty
    case 20 => if s[0] == 'p' then PropertyDisjointWith else QualifiedCardinality
    case 21 => AllDisjointProperties
    case 23 => if s[1] == 'a' then MaxQualifiedCardinality else MinQualifiedCardinality
    case _ => if s[0] == 'I' then InverseFunctionalProperty else NegativePropertyAssertion
  }

  lemma LongestRead(word: Word)
    requires BandOf(word) == Longest
    ensures 19 <= |LongestName(word)| && LongestWord(LongestName(word)) == word
  {
    var s := LongestName(word);
    assert |s| >= 19;
  }

  function WordOf(s: string): Word
    requires |s| >= 5
  {
    if |s| < 8 then ShortestWord(s) else if |s| < 12 then ShortWord(s) else if |s| < 14 then MediumWord(s)
    else if |s| < 16 then LongWord(s) else if |s| < 18 then LongerWord(s)
    else if |s| < 19 then EighteenWord(s) else LongestWord(s)
  }

  lemma WordOfLocal(word: Word)
    ensures |Local(word)| >= 5 && WordOf(Local(word)) == word
  {
    hide ShortestName, ShortestWord, ShortName, ShortWord, MediumName, MediumWord, LongName, LongWord, LongerName;
    hide LongerWord, EighteenName, EighteenWord, LongestName, LongestWord;
    match BandOf(word) {
      case Shortest =>
        ShortestRead(word);
        assert Local(word) == ShortestName(word);
      case Short =>
        ShortRead(word);
        assert Local(word) == ShortName(word);
      case Medium =>
        MediumRead(word);
        assert Local(word) == MediumName(word);
      case Long =>
        LongRead(word);
        assert Local(word) == LongName(word);
      case Longer =>
        LongerRead(word);
        assert Local(word) == LongerName(word);
      case Eighteen =>
        EighteenRead(word);
        assert Local(word) == EighteenName(word);
      case Longest =>
        LongestRead(word);
        assert Local(word) == LongestName(word);
    }
  }

  // What a node of the vocabulary stands for.
  datatype Term = OwlTerm(word: Word) | RdfsTerm(word: Word) | TypeTerm | FirstTerm | RestTerm | NilTerm | OtherTerm

  function MeaningOf(n: Node): Term {
    if !n.IRI? then OtherTerm
    else if n == TYPE then TypeTerm
    else if n == FIRST then FirstTerm
    else if n == REST then RestTerm
    else if n == NIL then NilTerm
    else if |n.value| >= |OWL_NS| + 5 && n.value[..|OWL_NS|] == OWL_NS then OwlTerm(WordOf(n.value[|OWL_NS|..]))
    else if |n.value| >= |RDFS_NS| + 5 && n.value[..|RDFS_NS|] == RDFS_NS then RdfsTerm(WordOf(n.value[|RDFS_NS|..]))
    else OtherTerm
  }

  lemma MeaningOfOwl(word: Word)
    ensures MeaningOf(Owl(word)) == OwlTerm(word)
  {
    WordOfLocal(word);
    hide Local, WordOf;
    var n := Owl(word);
    assert n.value[18] == '2' && TYPE.value[18] == '1' && FIRST.value[18] == '1';
    assert REST.value[18] == '1' && NIL.value[18] == '1';
    assert n.value[..|OWL_NS|] == OWL_NS && n.value[|OWL_NS|..] == Local(word);
  }

  lemma MeaningOfRdfs(word: Word)
    ensures MeaningOf(Rdfs(word)) == RdfsTerm(word)
  {
    WordOfLocal(word);
    hide Local, WordOf;
    var n := Rdfs(word);
    assert n.value[18] == '2' && TYPE.value[18] == '1' && FIRST.value[18] == '1';
    assert REST.value[18] == '1' && NIL.value[18] == '1';
    assert n.value[..|OWL_NS|][21] == '0' && OWL_NS[21] == '2';
    assert n.value[..|RDFS_NS|] == RDFS_NS && n.value[|RDFS_NS|..] == Local(word);
  }

  lemma MeaningOfRdf()
    ensures MeaningOf(TYPE) == TypeTerm && MeaningOf(FIRST) == FirstTerm
    ensures MeaningOf(REST) == RestTerm && MeaningOf(NIL) == NilTerm
  {
    assert TYPE.value[|RDF_NS|] == 't' && FIRST.value[|RDF_NS|] == 'f';
    assert REST.value[|RDF_NS|] == 'r' && NIL.value[|RDF_NS|] == 'n';
  }

  // Different vocabulary terms are different nodes.
  lemma Meanings()
    ensures forall word :: MeaningOf(Owl(word)) == OwlTerm(word) && MeaningOf(Rdfs(word)) == RdfsTerm(word)
    ensures MeaningOf(TYPE) == TypeTerm && MeaningOf(FIRST) == FirstTerm
    ensures MeaningOf(REST) == RestTerm && MeaningOf(NIL) == NilTerm
  {
    MeaningOfRdf();
    forall word ensures MeaningOf(Owl(word)) == OwlTerm(word) && MeaningOf(Rdfs(word)) == RdfsTerm(word) {
      MeaningOfOwl(word);
      MeaningOfRdfs(word);
    }
  }
}
