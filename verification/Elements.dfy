// The structural elements a graph is lifted into, one constructor per shape,
// and the triples each of them stands for.
module Elements {
  import opened Rdf
  import opened RdfLists
  import opened Ordering
  import opened Kinds

  datatype Field = Field(property: Node, operand: Node)

  // One facet of a datatype restriction, with the list cell it hangs on.
  datatype Facet = Facet(cell: Node, anchor: Node, facet: Node, value: Node)

  datatype Element =
    // Declarations and property characteristics.
    | Declaration(kind: Kind, name: Node, rdfType: Node)
    // Axioms and assertions of one triple.
    | BinaryAxiom(kind: Kind, name: Node, property: Node, operand: Node)
    // Restrictions, complements and negative assertions.
    | Described(kind: Kind, name: Node, rdfType: Node, values: seq<Field>)
    // Everything that owns a list of operands.
    | ListOwner(kind: Kind, name: Node, declared: Option<Node>, property: Node, list: Seq, values: seq<Field>)
    | Faceted(kind: Kind, name: Node, onDatatype: Node, facets: seq<Facet>)
  {
    function AsTriples(): set<Triple> {
      match this
      case Declaration(_, _, rdfType) => {Triple(name, TYPE, rdfType)}
      case BinaryAxiom(_, _, property, operand) => {Triple(name, property, operand)}
      case Described(_, _, rdfType, values) => {Triple(name, TYPE, rdfType)} + FieldTriples(name, values)
      case ListOwner(_, _, declared, property, list, values) =>
        list.AsTriples() + TypeTriples(name, declared) + FieldTriples(name, values) +
        if list.entries == [] then {} else {Triple(name, property, list.Name())}
      case Faceted(_, _, onDatatype, facets) =>
        FacetTriples(facets) + {Triple(name, TYPE, DATATYPE), Triple(name, ON_DATATYPE, onDatatype),
                                Triple(name, WITH_RESTRICTIONS, FacetHead(facets))}
    }
  }

  function TypeTriples(name: Node, rdfType: Option<Node>): set<Triple> {
    if rdfType.Some? then {Triple(name, TYPE, rdfType.value)} else {}
  }

  function FieldTriples(name: Node, values: seq<Field>): set<Triple> {
    set i | 0 <= i < |values| :: Triple(name, values[i].property, values[i].operand)
  }

  function FacetHead(facets: seq<Facet>): Node {
    if facets == [] then NIL else facets[0].cell
  }

  function FacetCells(facets: seq<Facet>): seq<Cell> {
    seq(|facets|, i requires 0 <= i < |facets| => Cell(facets[i].cell, facets[i].anchor))
  }

  function AnchorTriples(facets: seq<Facet>): set<Triple> {
    set i | 0 <= i < |facets| :: Triple(facets[i].anchor, facets[i].facet, facets[i].value)
  }

  function FacetTriples(facets: seq<Facet>): set<Triple> {
    CellTriples(FacetCells(facets)) + AnchorTriples(facets)
  }

  // Elements that only fall back on a declaration sort behind richer ones of
  // the same name.
  predicate IsFallback(kind: Kind) {
    match kind
    case Entity(c) => c in {DeclarationDatatype, DeclarationClass, DeclarationObjectProperty,
                            DeclarationDataProperty, DeclarationAnnotationProperty, EntityClass.NamedIndividual}
    case _ => false
  }

  function SortKey(e: Element): ElementKey {
    ElementKey(KeyOf(e.name), IsFallback(e.kind), ClassName(e.kind))
  }

  // Names harvested from the elements lifted so far

  function Resources(nodes: seq<Node>): set<Node> {
    set n | n in nodes && IsResource(n)
  }

  function ValuesAt(e: Element, properties: set<Node>): set<Node> {
    if e.Described? || e.ListOwner? then set v | v in e.values && v.property in properties && IsResource(v.operand) :: v.operand else {}
  }

  predicate NamesClass(kind: Kind) {
    match kind
    case Entity(c) => c == DeclarationClass
    case Binary(c) => c in {BinaryClass.SubClassOf, EquivalentClasses, DisjointClasses}
    case Frame(c) => c in {ObjectComplementOf, ObjectSomeValuesFrom, ObjectAllValuesFrom, ObjectHasValue,
                           ObjectHasSelf, ObjectMinCardinality, ObjectMaxCardinality, ObjectExactCardinality,
                           ObjectMinCardinalityQualified, ObjectMaxCardinalityQualified,
                           ObjectExactCardinalityQualified}
    case Listing(c) => c in {ObjectIntersectionOf, ObjectUnionOf, ObjectOneOf, DisjointUnion, ListClass.HasKey}
    case DatatypeRestriction => false
  }

  predicate ClassOperand(kind: Kind) {
    match kind
    case Binary(c) => c in {BinaryClass.SubClassOf, EquivalentClasses, DisjointClasses, ObjectPropertyDomain,
                            ObjectPropertyRange, DataPropertyDomain}
    case _ => false
  }

  predicate ClassMembers(kind: Kind) {
    match kind
    case Listing(c) => c in {DisjointClassesNary, DisjointUnion, ObjectIntersectionOf, ObjectUnionOf}
    case _ => false
  }

  predicate ClassFiller(kind: Kind) {
    match kind
    case Frame(c) => c in {ObjectComplementOf, ObjectSomeValuesFrom, ObjectAllValuesFrom,
                           ObjectMinCardinalityQualified, ObjectMaxCardinalityQualified,
                           ObjectExactCardinalityQualified}
    case _ => false
  }

  function ClassExpressions(e: Element): set<Node> {
    (if NamesClass(e.kind) then Resources([e.name]) else {}) +
    (if e.BinaryAxiom? && ClassOperand(e.kind) then Resources([e.operand]) else {}) +
    (if e.ListOwner? && ClassMembers(e.kind) then Resources(e.list.Values()) else {}) +
    (if ClassFiller(e.kind) then ValuesAt(e, {Owl(ComplementOf), Owl(SomeValuesFrom), Owl(AllValuesFrom), ON_CLASS}) else {})
  }

  predicate NamesObjectProperty(kind: Kind) {
    match kind
    case Entity(c) => c in {DeclarationObjectProperty, FunctionalObjectProperty, InverseFunctionalObjectProperty,
                            ReflexiveObjectProperty, IrreflexiveObjectProperty, SymmetricObjectProperty,
                            AsymmetricObjectProperty, TransitiveObjectProperty}
    case Binary(c) => c in {ObjectInverseOf, SubObjectPropertyOf, EquivalentObjectProperties,
                            DisjointObjectProperties, InverseObjectProperties, ObjectPropertyDomain,
                            ObjectPropertyRange}
    case Listing(c) => c == SubObjectPropertyOfChain
    case _ => false
  }

  predicate ObjectPropertyOperand(kind: Kind) {
    match kind
    case Binary(c) => c in {SubObjectPropertyOf, EquivalentObjectProperties, DisjointObjectProperties,
                            InverseObjectProperties}
    case _ => false
  }

  predicate ObjectPropertyMembers(kind: Kind) {
    match kind
    case Listing(c) => c in {SubObjectPropertyOfChain, DisjointObjectPropertiesNary}
    case _ => false
  }

  predicate RestrictsObjectProperty(kind: Kind) {
    match kind
    case Frame(c) => c in {ObjectSomeValuesFrom, ObjectAllValuesFrom, ObjectHasValue, ObjectHasSelf,
                           ObjectMinCardinality, ObjectMaxCardinality, ObjectExactCardinality,
                           ObjectMinCardinalityQualified, ObjectMaxCardinalityQualified,
                           ObjectExactCardinalityQualified}
    case _ => false
  }

  function ObjectProperties(e: Element): set<Node> {
    (if NamesObjectProperty(e.kind) then Resources([e.name]) else {}) +
    (if e.BinaryAxiom? && ObjectPropertyOperand(e.kind) then Resources([e.operand]) else {}) +
    (if e.ListOwner? && ObjectPropertyMembers(e.kind) then Resources(e.list.Values()) else {}) +
    (if RestrictsObjectProperty(e.kind) then ValuesAt(e, {ON_PROPERTY}) else {})
  }

  predicate NamesDataProperty(kind: Kind) {
    match kind
    case Entity(c) => c in {DeclarationDataProperty, FunctionalDataProperty}
    case Binary(c) => c in {SubDataPropertyOf, EquivalentDataProperties, DisjointDataProperties, DataPropertyDomain,
                            DataPropertyRange}
    case _ => false
  }

  predicate DataPropertyOperand(kind: Kind) {
    match kind
    case Binary(c) => c in {SubDataPropertyOf, EquivalentDataProperties, DisjointDataProperties}
    case _ => false
  }

  predicate DataPropertyMembers(kind: Kind) {
    match kind
    case Listing(c) => c in {DisjointDataPropertiesNary, DataSomeValuesFromNary, DataAllValuesFromNary}
    case _ => false
  }

  predicate RestrictsDataProperty(kind: Kind) {
    match kind
    case Frame(c) => c in {DataSomeValuesFrom, DataAllValuesFrom, DataHasValue, DataMinCardinality,
                           DataMaxCardinality, DataExactCardinality, DataMinCardinalityQualified,
                           DataMaxCardinalityQualified, DataExactCardinalityQualified}
    case _ => false
  }

  function DataProperties(e: Element): set<Node> {
    (if NamesDataProperty(e.kind) then Resources([e.name]) else {}) +
    (if e.BinaryAxiom? && DataPropertyOperand(e.kind) then Resources([e.operand]) else {}) +
    (if e.ListOwner? && DataPropertyMembers(e.kind) then Resources(e.list.Values()) else {}) +
    (if RestrictsDataProperty(e.kind) then ValuesAt(e, {ON_PROPERTY}) else {})
  }

  function KnownClassExpressions(elements: seq<Element>): set<Node> {
    {Owl(Thing), Owl(Nothing)} + set e, n | e in elements && n in ClassExpressions(e) :: n
  }

  function KnownObjectProperties(elements: seq<Element>): set<Node> {
    set e, n | e in elements && n in ObjectProperties(e) :: n
  }

  function KnownDataProperties(elements: seq<Element>): set<Node> {
    set e, n | e in elements && n in DataProperties(e) :: n
  }
}
