// Which classes and properties an element names, told by the triples it prints
// and the typing of the graph. Assertions are lifted by these names alone.
module Gates {
  import opened Rdf
  import opened RdfLists
  import opened Kinds
  import opened Elements
  import opened Passes
  import opened Conformance
  import opened Choices
  import opened Acceptance

  // Typing

  predicate IsData(graph: set<Triple>, p: Node) {
    Triple(p, TYPE, DATATYPE_PROPERTY) in graph
  }

  // One of the types of object properties, or functional and no data property.
  predicate IsObject(graph: set<Triple>, p: Node) {
    || Triple(p, TYPE, Owl(ObjectProperty)) in graph || Triple(p, TYPE, Owl(InverseFunctionalProperty)) in graph
    || Triple(p, TYPE, Owl(ReflexiveProperty)) in graph || Triple(p, TYPE, Owl(IrreflexiveProperty)) in graph
    || Triple(p, TYPE, Owl(SymmetricProperty)) in graph || Triple(p, TYPE, Owl(AsymmetricProperty)) in graph
    || Triple(p, TYPE, Owl(TransitiveProperty)) in graph
    || (Triple(p, TYPE, Owl(FunctionalProperty)) in graph && !IsData(graph, p))
  }

  // Positions of a class in axioms of one triple

  predicate ClassSubject(graph: set<Triple>, t: Triple) {
    || t.p == Rdfs(Word.SubClassOf) || t.p == Owl(DisjointWith)
    || (t.p == Owl(EquivalentClass) && Triple(t.s, TYPE, Rdfs(Datatype)) !in graph)
    || (t.p == TYPE && t.o == Owl(Class))
  }

  predicate ClassObject(graph: set<Triple>, t: Triple) {
    || t.p == Rdfs(Word.SubClassOf) || t.p == Owl(DisjointWith) || t.p == Rdfs(Domain)
    || (t.p == Owl(EquivalentClass) && Triple(t.s, TYPE, Rdfs(Datatype)) !in graph)
    || (t.p == Rdfs(Range) && !IsData(graph, t.s))
  }

  // Positions of a property

  predicate RelatesProperties(p: Node) {
    p == Rdfs(SubPropertyOf) || p == Owl(EquivalentProperty) || p == Owl(PropertyDisjointWith)
  }

  predicate ObjectSubject(graph: set<Triple>, t: Triple) {
    || t.p == Owl(InverseOf)
    || ((RelatesProperties(t.p) || t.p == Rdfs(Domain) || t.p == Rdfs(Range)) && !IsData(graph, t.s))
    || (t.p == TYPE && (t.o == Owl(ObjectProperty) || t.o == Owl(InverseFunctionalProperty) ||
          t.o == Owl(ReflexiveProperty) || t.o == Owl(IrreflexiveProperty) || t.o == Owl(SymmetricProperty) ||
          t.o == Owl(AsymmetricProperty) || t.o == Owl(TransitiveProperty) ||
          (t.o == Owl(FunctionalProperty) && !IsData(graph, t.s))))
  }

  predicate ObjectObject(graph: set<Triple>, t: Triple) {
    (t.p == Owl(InverseOf) && t.s.IRI?) || (RelatesProperties(t.p) && !IsData(graph, t.s))
  }

  predicate DataSubject(graph: set<Triple>, t: Triple) {
    || ((RelatesProperties(t.p) || t.p == Rdfs(Domain) || t.p == Rdfs(Range)) && IsData(graph, t.s))
    || (t.p == TYPE && (t.o == Owl(DatatypeProperty) || (t.o == Owl(FunctionalProperty) && IsData(graph, t.s))))
  }

  predicate DataObject(graph: set<Triple>, t: Triple) {
    RelatesProperties(t.p) && IsData(graph, t.s)
  }

  // Elements of one triple

  predicate IsAssertion(kind: Kind) {
    kind == Binary(ClassAssertion) || kind == Binary(ObjectPropertyAssertion) || kind == Binary(DataPropertyAssertion)
  }

  ghost predicate Proper(graph: set<Triple>, all: seq<Element>, e: Element) {
    Conforms(e) && Chosen(graph, all, e) && !IsAssertion(e.kind)
  }

  function TheTriple(e: Element): Triple
    requires e.Declaration? || e.BinaryAxiom?
  {
    if e.Declaration? then Triple(e.name, TYPE, e.rdfType) else Triple(e.name, e.property, e.operand)
  }

  // A type triple is in none of the positions but that of a declared subject.
  lemma TypePositions(graph: set<Triple>, t: Triple)
    requires t.p == TYPE
    ensures ClassSubject(graph, t) <==> t.o == Owl(Class)
    ensures ObjectSubject(graph, t) <==>
      || t.o == Owl(ObjectProperty) || t.o == Owl(InverseFunctionalProperty) || t.o == Owl(ReflexiveProperty)
      || t.o == Owl(IrreflexiveProperty) || t.o == Owl(SymmetricProperty) || t.o == Owl(AsymmetricProperty)
      || t.o == Owl(TransitiveProperty) || (t.o == Owl(FunctionalProperty) && !IsData(graph, t.s))
    ensures DataSubject(graph, t) <==>
      t.o == Owl(DatatypeProperty) || (t.o == Owl(FunctionalProperty) && IsData(graph, t.s))
    ensures !ClassObject(graph, t) && !ObjectObject(graph, t) && !DataObject(graph, t)
  {
    hide Owl, Rdfs, TYPE, FIRST, REST, NIL, MeaningOf, IsData;
    Meanings();
  }

  lemma EntityNames(graph: set<Triple>, e: Element, c: EntityClass, n: Node)
    requires e.Declaration? && e.kind == Entity(c)
    ensures n in ClassExpressions(e) <==> n == e.name && IsResource(n) && c == DeclarationClass
    ensures n in ObjectProperties(e) <==> n == e.name && IsResource(n) && NamesObjectProperty(e.kind)
    ensures n in DataProperties(e) <==> n == e.name && IsResource(n) && NamesDataProperty(e.kind)
  {
  }

  lemma EntityTypes(c: EntityClass)
    ensures EntityType(c) == Owl(Class) <==> c == DeclarationClass
    ensures EntityType(c) == Owl(ObjectProperty) <==> c == DeclarationObjectProperty
    ensures EntityType(c) == Owl(InverseFunctionalProperty) <==> c == InverseFunctionalObjectProperty
    ensures EntityType(c) == Owl(ReflexiveProperty) <==> c == ReflexiveObjectProperty
    ensures EntityType(c) == Owl(IrreflexiveProperty) <==> c == IrreflexiveObjectProperty
    ensures EntityType(c) == Owl(SymmetricProperty) <==> c == SymmetricObjectProperty
    ensures EntityType(c) == Owl(AsymmetricProperty) <==> c == AsymmetricObjectProperty
    ensures EntityType(c) == Owl(TransitiveProperty) <==> c == TransitiveObjectProperty
    ensures EntityType(c) == Owl(FunctionalProperty) <==> c == FunctionalObjectProperty || c == FunctionalDataProperty
    ensures EntityType(c) == Owl(DatatypeProperty) <==> c == DeclarationDataProperty
  {
    hide Owl, Rdfs, TYPE, FIRST, REST, NIL, MeaningOf;
    Meanings();
  }

  lemma DeclaredKind(e: Element)
    requires Conforms(e) && e.Declaration?
    ensures e.kind.Entity? && e.rdfType == EntityType(e.kind.entity)
  {
    hide Owl, Rdfs, TYPE, EntityType;
  }

  lemma DeclarationNames(graph: set<Triple>, all: seq<Element>, e: Element, n: Node)
    requires Proper(graph, all, e) && e.Declaration?
    ensures var t := TheTriple(e);
      && (n in ClassExpressions(e) <==> n == t.s && IsResource(n) && ClassSubject(graph, t))
      && (n in ObjectProperties(e) <==> n == t.s && IsResource(n) && ObjectSubject(graph, t))
      && (n in DataProperties(e) <==> n == t.s && IsResource(n) && DataSubject(graph, t))
  {
    hide Owl, Rdfs, TYPE, EntityType, ClassExpressions, ObjectProperties, DataProperties, Conforms, ClassSubject;
    hide ObjectSubject, DataSubject;
    DeclaredKind(e);
    var c := e.kind.entity;
    EntityNames(graph, e, c, n);
    EntityTypes(c);
    TypePositions(graph, TheTriple(e));
  }

  // Axioms of one triple, property by property.
  lemma ClassAxiomPositions(graph: set<Triple>, t: Triple)
    ensures t.p == Rdfs(Word.SubClassOf) || t.p == Owl(DisjointWith) ==> ClassSubject(graph, t) && ClassObject(graph, t)
    ensures t.p == Owl(EquivalentClass) ==>
      (ClassSubject(graph, t) <==> ClassObject(graph, t)) &&
          (ClassSubject(graph, t) <==> !Has(graph, t.s, TYPE, DATATYPE))
    ensures t.p == Rdfs(Domain) ==> !ClassSubject(graph, t) && ClassObject(graph, t)
    ensures t.p == Rdfs(Range) ==> !ClassSubject(graph, t) && (ClassObject(graph, t) <==> !IsData(graph, t.s))
    ensures RelatesProperties(t.p) || t.p == Owl(InverseOf) || t.p == Owl(SameAs) || t.p == Owl(DifferentFrom) ==>
      !ClassSubject(graph, t) && !ClassObject(graph, t)
  {
    hide Owl, Rdfs, TYPE, FIRST, REST, NIL, MeaningOf, IsData;
    Meanings();
  }

  lemma PropertyAxiomPositions(graph: set<Triple>, t: Triple)
    ensures RelatesProperties(t.p) ==>
      && (ObjectSubject(graph, t) <==> !IsData(graph, t.s)) && (ObjectObject(graph, t) <==> !IsData(graph, t.s))
      && (DataSubject(graph, t) <==> IsData(graph, t.s)) && (DataObject(graph, t) <==> IsData(graph, t.s))
    ensures t.p == Rdfs(Domain) || t.p == Rdfs(Range) ==>
      && (ObjectSubject(graph, t) <==> !IsData(graph, t.s)) && !ObjectObject(graph, t)
      && (DataSubject(graph, t) <==> IsData(graph, t.s)) && !DataObject(graph, t)
    ensures t.p == Owl(InverseOf) ==>
      && ObjectSubject(graph, t) && (ObjectObject(graph, t) <==> t.s.IRI?)
      && !DataSubject(graph, t) && !DataObject(graph, t)
    ensures t.p in {Rdfs(Word.SubClassOf), Owl(DisjointWith), Owl(EquivalentClass), Owl(SameAs), Owl(DifferentFrom)} ==>
      !ObjectSubject(graph, t) && !ObjectObject(graph, t) && !DataSubject(graph, t) && !DataObject(graph, t)
  {
    hide Owl, Rdfs, TYPE, FIRST, REST, NIL, MeaningOf, IsData;
    Meanings();
  }

  lemma BinaryNames(e: Element, n: Node)
    requires e.BinaryAxiom? && e.kind.Binary?
    ensures n in ClassExpressions(e) <==>
      IsResource(n) && ((n == e.name && NamesClass(e.kind)) || (n == e.operand && ClassOperand(e.kind)))
    ensures n in ObjectProperties(e) <==>
      IsResource(n) && ((n == e.name && NamesObjectProperty(e.kind)) ||
          (n == e.operand && ObjectPropertyOperand(e.kind)))
    ensures n in DataProperties(e) <==>
      IsResource(n) && ((n == e.name && NamesDataProperty(e.kind)) || (n == e.operand && DataPropertyOperand(e.kind)))
  {
    hide Owl, ON_PROPERTY, ON_CLASS;
  }

  lemma AxiomKind(e: Element)
    requires Conforms(e) && e.BinaryAxiom?
    ensures e.kind.Binary? && (!IsAssertion(e.kind) ==> BinaryTemplate(e.kind.binary).only == Some(e.property))
    ensures e.kind == Binary(InverseObjectProperties) ==> e.name.IRI?
    ensures e.kind == Binary(BinaryClass.ObjectInverseOf) ==> !e.name.IRI?
  {
    hide Owl, Rdfs, TYPE;
  }

  lemma AxiomSide(graph: set<Triple>, all: seq<Element>, e: Element)
    requires Chosen(graph, all, e) && e.kind.Binary?
    ensures match BinarySide(e.kind.binary)
      case ByTyping(data) => data == IsData(graph, e.name)
      case ByDatatypeTyping(data) => data == Has(graph, e.name, TYPE, DATATYPE)
      case _ => true
  {
    hide BinarySide, TYPE, DATATYPE, DATATYPE_PROPERTY;
  }

  lemma ClassAxiomNames(graph: set<Triple>, all: seq<Element>, e: Element, c: BinaryClass)
    requires Proper(graph, all, e) && e.BinaryAxiom? && e.kind == Binary(c)
    ensures var t := TheTriple(e);
      && (NamesClass(e.kind) <==> ClassSubject(graph, t)) && (ClassOperand(e.kind) <==> ClassObject(graph, t))
  {
    hide Owl, Rdfs, TYPE, Conforms, Chosen, ClassSubject, ClassObject, IsData, Has;
    AxiomKind(e);
    AxiomSide(graph, all, e);
    ClassAxiomPositions(graph, TheTriple(e));
    match c {
      case SubClassOf =>
      case EquivalentClasses =>
      case DatatypeDefinition =>
      case DisjointClasses =>
      case _ =>
    }
  }

  predicate Relating(c: BinaryClass) {
    || c in {SubObjectPropertyOf, SubDataPropertyOf, EquivalentObjectProperties, EquivalentDataProperties}
    || c in {DisjointObjectProperties, DisjointDataProperties}
  }

  lemma RelatingAxioms(c: BinaryClass)
    ensures Relating(c) ==> BinaryTemplate(c).only.Some? && RelatesProperties(BinaryTemplate(c).only.value)
  {
    hide Owl, Rdfs, TYPE;
  }

  lemma ObjectAxiomNames(graph: set<Triple>, all: seq<Element>, e: Element, c: BinaryClass)
    requires Proper(graph, all, e) && e.BinaryAxiom? && e.kind == Binary(c)
    ensures NamesObjectProperty(e.kind) <==> ObjectSubject(graph, TheTriple(e))
    ensures ObjectPropertyOperand(e.kind) <==> ObjectObject(graph, TheTriple(e))
  {
    hide Owl, Rdfs, TYPE, Conforms, Chosen, ObjectSubject, ObjectObject, DataSubject, DataObject, IsData;
    hide RelatesProperties;
    AxiomKind(e);
    AxiomSide(graph, all, e);
    RelatingAxioms(c);
    PropertyAxiomPositions(graph, TheTriple(e));
  }

  lemma DataAxiomNames(graph: set<Triple>, all: seq<Element>, e: Element, c: BinaryClass)
    requires Proper(graph, all, e) && e.BinaryAxiom? && e.kind == Binary(c)
    ensures NamesDataProperty(e.kind) <==> DataSubject(graph, TheTriple(e))
    ensures DataPropertyOperand(e.kind) <==> DataObject(graph, TheTriple(e))
  {
    hide Owl, Rdfs, TYPE, Conforms, Chosen, ObjectSubject, ObjectObject, DataSubject, DataObject, IsData;
    hide RelatesProperties;
    AxiomKind(e);
    AxiomSide(graph, all, e);
    RelatingAxioms(c);
    PropertyAxiomPositions(graph, TheTriple(e));
  }

  lemma AxiomNames(graph: set<Triple>, all: seq<Element>, e: Element, n: Node)
    requires Proper(graph, all, e) && e.BinaryAxiom?
    ensures var t := TheTriple(e);
      && (n in ClassExpressions(e) <==>
        IsResource(n) && ((n == t.s && ClassSubject(graph, t)) || (n == t.o && ClassObject(graph, t))))
      && (n in ObjectProperties(e) <==>
        IsResource(n) && ((n == t.s && ObjectSubject(graph, t)) || (n == t.o && ObjectObject(graph, t))))
      && (n in DataProperties(e) <==>
        IsResource(n) && ((n == t.s && DataSubject(graph, t)) || (n == t.o && DataObject(graph, t))))
  {
    AxiomKind(e);
    BinaryNames(e, n);
    ClassAxiomNames(graph, all, e, e.kind.binary);
    ObjectAxiomNames(graph, all, e, e.kind.binary);
    DataAxiomNames(graph, all, e, e.kind.binary);
    hide ClassExpressions, ObjectProperties, DataProperties, Proper, ClassSubject, ClassObject, ObjectSubject;
    hide ObjectObject, DataSubject, DataObject, NamesClass, ClassOperand, NamesObjectProperty, ObjectPropertyOperand;
    hide NamesDataProperty, DataPropertyOperand;
  }

  // Restrictions

  // Restrictions whose side the typing of their property decides.
  predicate Quantifies(p: Node) {
    || p == Owl(SomeValuesFrom) || p == Owl(AllValuesFrom) || p == Owl(Cardinality)
    || p == Owl(MinCardinality) || p == Owl(MaxCardinality)
  }

  // The restriction is one over an object property.
  ghost predicate MarksObject(graph: set<Triple>, triples: set<Triple>, t: Triple) {
    || t.p == Owl(HasSelf) || t.p == Owl(OnClass) || (t.p == Owl(HasValue) && IsResource(t.o))
    || (Quantifies(t.p) && exists u :: u in triples && u.s == t.s && u.p == Owl(OnProperty) && IsObject(graph, u.o))
  }

  ghost predicate RestrictsObject(graph: set<Triple>, triples: set<Triple>, s: Node) {
    exists t :: t in triples && t.s == s && MarksObject(graph, triples, t)
  }

  // What the triples of one element name

  // The subject of the triple is a class, an object property, a data property.

  predicate HeadsClass(graph: set<Triple>, t: Triple) {
    ClassSubject(graph, t) || t.p == Owl(DisjointUnionOf) || t.p == Owl(Word.HasKey)
  }

  predicate HeadsObject(graph: set<Triple>, t: Triple) {
    ObjectSubject(graph, t) || t.p == Owl(PropertyChainAxiom)
  }

  // And its object.

  ghost predicate HoldsClass(graph: set<Triple>, triples: set<Triple>, t: Triple) {
    || ClassObject(graph, t) || t.p == Owl(OnClass)
    || (t.p == Owl(ComplementOf) && Triple(t.s, TYPE, Owl(Class)) in triples)
    || ((t.p == Owl(SomeValuesFrom) || t.p == Owl(AllValuesFrom)) && RestrictsObject(graph, triples, t.s))
  }

  ghost predicate HoldsObject(graph: set<Triple>, triples: set<Triple>, t: Triple) {
    ObjectObject(graph, t) || (t.p == Owl(OnProperty) && RestrictsObject(graph, triples, t.s))
  }

  ghost predicate HoldsData(graph: set<Triple>, triples: set<Triple>, t: Triple) {
    DataObject(graph, t) || (t.p == Owl(OnProperty) && !RestrictsObject(graph, triples, t.s))
  }

  // The entries of a list are.

  ghost predicate ListsClasses(triples: set<Triple>, t: Triple) {
    || t.p == Owl(DisjointUnionOf) || (t.p == TYPE && t.o == Owl(AllDisjointClasses))
    || ((t.p == Owl(UnionOf) || t.p == Owl(IntersectionOf)) && Triple(t.s, TYPE, Owl(Class)) in triples)
  }

  ghost predicate AllData(graph: set<Triple>, triples: set<Triple>) {
    forall t :: t in triples && t.p == FIRST ==> IsData(graph, t.o)
  }

  ghost predicate ListsObjects(graph: set<Triple>, triples: set<Triple>, t: Triple) {
    t.p == Owl(PropertyChainAxiom) || (t.p == TYPE && t.o == Owl(AllDisjointProperties) && !AllData(graph, triples))
  }

  ghost predicate ListsData(graph: set<Triple>, triples: set<Triple>, t: Triple) {
    t.p == Owl(OnProperties) || (t.p == TYPE && t.o == Owl(AllDisjointProperties) && AllData(graph, triples))
  }

  ghost predicate Listed(triples: set<Triple>, n: Node) {
    exists t :: t in triples && t.p == FIRST && t.o == n
  }

  // Triple by triple

  // The triple names neither its subject nor its object, and is not of a list.
  ghost predicate NamesNeither(graph: set<Triple>, triples: set<Triple>, t: Triple) {
    && !HeadsClass(graph, t) && !HeadsObject(graph, t) && !DataSubject(graph, t)
    && !HoldsClass(graph, triples, t) && !HoldsObject(graph, triples, t) && !HoldsData(graph, triples, t)
    && !ListsClasses(triples, t) && !ListsObjects(graph, triples, t) && !ListsData(graph, triples, t)
  }

  // None of the properties by which a description names something.
  predicate Other(p: Node) {
    && p != Owl(DisjointUnionOf) && p != Owl(Word.HasKey) && p != Owl(PropertyChainAxiom) && p != Owl(OnClass)
    && p != Owl(ComplementOf) && p != Owl(SomeValuesFrom) && p != Owl(AllValuesFrom) && p != Owl(OnProperty)
    && p != Owl(OnProperties) && p != Owl(UnionOf) && p != Owl(IntersectionOf)
  }

  predicate Marking(p: Node) {
    p == Owl(HasSelf) || p == Owl(HasValue) || p == Owl(OnClass) || Quantifies(p)
  }

  lemma TypeIsOther()
    ensures Other(TYPE) && !Marking(TYPE) && TYPE != FIRST
  {
    hide Owl, Rdfs, TYPE, FIRST, REST, NIL, MeaningOf;
    Meanings();
  }

  lemma TypeTriple(graph: set<Triple>, triples: set<Triple>, t: Triple)
    requires t.p == TYPE
    ensures HeadsClass(graph, t) <==> t.o == CLASS
    ensures (HeadsObject(graph, t) <==> ObjectSubject(graph, t)) && !MarksObject(graph, triples, t)
    ensures !HoldsClass(graph, triples, t) && !HoldsObject(graph, triples, t) && !HoldsData(graph, triples, t)
    ensures ListsClasses(triples, t) <==> t.o == Owl(AllDisjointClasses)
    ensures ListsObjects(graph, triples, t) <==> t.o == Owl(AllDisjointProperties) && !AllData(graph, triples)
    ensures ListsData(graph, triples, t) <==> t.o == Owl(AllDisjointProperties) && AllData(graph, triples)
  {
    hide Owl, Rdfs, TYPE, ClassSubject, ClassObject, ObjectSubject, ObjectObject, DataSubject, DataObject;
    hide RestrictsObject, AllData, Quantifies;
    TypeIsOther();
    TypePositions(graph, t);
  }

  // No declaration and no axiom of one triple.
  lemma ForeignTriple(graph: set<Triple>, t: Triple)
    requires Foreign(t.p)
    ensures !ClassSubject(graph, t) && !ClassObject(graph, t) && !ObjectSubject(graph, t) && !ObjectObject(graph, t)
    ensures !DataSubject(graph, t) && !DataObject(graph, t)
  {
    hide Owl, Rdfs, TYPE;
  }

  lemma OtherTriple(graph: set<Triple>, triples: set<Triple>, t: Triple)
    requires Foreign(t.p) && Other(t.p)
    ensures NamesNeither(graph, triples, t)
  {
    hide Owl, Rdfs, TYPE, ClassSubject, ClassObject, ObjectSubject, ObjectObject, DataSubject, DataObject;
    hide RestrictsObject, AllData, Quantifies;
    ForeignTriple(graph, t);
  }

  // Restrictions with one value

  predicate SimpleProperty(q: Node) {
    q == Owl(HasSelf) || q == Owl(HasValue) || Quantifies(q)
  }

  predicate IsFiller(q: Node) {
    q == Owl(SomeValuesFrom) || q == Owl(AllValuesFrom)
  }

  lemma CountsAreOther()
    ensures Other(Owl(Cardinality)) && Other(Owl(MinCardinality)) && Other(Owl(MaxCardinality))
  {
    hide Owl, Rdfs, TYPE, FIRST, REST, NIL, MeaningOf;
    Meanings();
  }

  lemma ValuesAreOther()
    ensures Other(Owl(HasSelf)) && Other(Owl(HasValue))
  {
    hide Owl, Rdfs, TYPE, FIRST, REST, NIL, MeaningOf;
    Meanings();
  }

  lemma SimpleIsForeign(q: Node)
    requires SimpleProperty(q)
    ensures Foreign(q)
  {
    hide Owl, Foreign;
    OwlForeign();
  }

  lemma SimpleApart(q: Node)
    requires SimpleProperty(q)
    ensures IsFiller(q) || Other(q)
  {
    hide Owl, Other;
    CountsAreOther();
    ValuesAreOther();
  }

  lemma FillerApart(q: Node)
    requires IsFiller(q)
    ensures q != Owl(DisjointUnionOf) && q != Owl(Word.HasKey) && q != Owl(PropertyChainAxiom) && q != Owl(OnClass)
    ensures q != Owl(ComplementOf) && q != Owl(OnProperty) && q != Owl(OnProperties)
    ensures q != Owl(UnionOf) && q != Owl(IntersectionOf)
  {
    hide Owl, Rdfs, TYPE, FIRST, REST, NIL, MeaningOf;
    Meanings();
  }

  lemma SimpleTriple(graph: set<Triple>, triples: set<Triple>, t: Triple)
    requires SimpleProperty(t.p)
    ensures !HeadsClass(graph, t) && !HeadsObject(graph, t) && !DataSubject(graph, t)
    ensures HoldsClass(graph, triples, t) <==> IsFiller(t.p) && RestrictsObject(graph, triples, t.s)
    ensures !HoldsObject(graph, triples, t) && !HoldsData(graph, triples, t)
    ensures !ListsClasses(triples, t) && !ListsObjects(graph, triples, t) && !ListsData(graph, triples, t)
  {
    hide Owl, Rdfs, TYPE, ClassSubject, ClassObject, ObjectSubject, ObjectObject, DataSubject, DataObject;
    hide RestrictsObject, AllData, Quantifies;
    SimpleApart(t.p);
    SimpleIsForeign(t.p);
    if IsFiller(t.p) {
      FillerApart(t.p);
      ForeignTriple(graph, t);
    } else {
      OtherTriple(graph, triples, t);
    }
  }

  lemma OnPropertyApart()
    ensures Foreign(ON_PROPERTY) && !Marking(ON_PROPERTY) && !IsFiller(ON_PROPERTY) && ON_PROPERTY != FIRST
    ensures ON_PROPERTY != Owl(DisjointUnionOf) && ON_PROPERTY != Owl(Word.HasKey)
    ensures ON_PROPERTY != Owl(PropertyChainAxiom) && ON_PROPERTY != Owl(OnClass) && ON_PROPERTY != Owl(ComplementOf)
    ensures ON_PROPERTY != Owl(OnProperties) && ON_PROPERTY != Owl(UnionOf) && ON_PROPERTY != Owl(IntersectionOf)
  {
    hide Owl, Rdfs, TYPE, FIRST, REST, NIL, MeaningOf, Foreign;
    OwlForeign();
    Meanings();
  }

  lemma OnPropertyTriple(graph: set<Triple>, triples: set<Triple>, t: Triple)
    requires t.p == ON_PROPERTY
    ensures !HeadsClass(graph, t) && !HeadsObject(graph, t) && !DataSubject(graph, t) && !HoldsClass(graph, triples, t)
    ensures HoldsObject(graph, triples, t) <==> RestrictsObject(graph, triples, t.s)
    ensures HoldsData(graph, triples, t) <==> !RestrictsObject(graph, triples, t.s)
    ensures !ListsClasses(triples, t) && !ListsObjects(graph, triples, t) && !ListsData(graph, triples, t)
    ensures !MarksObject(graph, triples, t)
  {
    hide Owl, Rdfs, TYPE, ClassSubject, ClassObject, ObjectSubject, ObjectObject, DataSubject, DataObject;
    hide RestrictsObject, AllData, Quantifies;
    OnPropertyApart();
    ForeignTriple(graph, t);
  }

  // What a set of triples names

  ghost predicate ClassNamed(graph: set<Triple>, triples: set<Triple>, n: Node) {
    || (exists t :: t in triples && t.s == n && HeadsClass(graph, t))
    || (Triple(n, TYPE, Owl(Restriction)) in triples && RestrictsObject(graph, triples, n))
    || (exists t :: t in triples && t.o == n && HoldsClass(graph, triples, t))
    || (Listed(triples, n) && exists t :: t in triples && ListsClasses(triples, t))
  }

  ghost predicate ObjectNamed(graph: set<Triple>, triples: set<Triple>, n: Node) {
    || (exists t :: t in triples && t.s == n && HeadsObject(graph, t))
    || (exists t :: t in triples && t.o == n && HoldsObject(graph, triples, t))
    || (Listed(triples, n) && exists t :: t in triples && ListsObjects(graph, triples, t))
  }

  ghost predicate DataNamed(graph: set<Triple>, triples: set<Triple>, n: Node) {
    || (exists t :: t in triples && t.s == n && DataSubject(graph, t))
    || (exists t :: t in triples && t.o == n && HoldsData(graph, triples, t))
    || (Listed(triples, n) && exists t :: t in triples && ListsData(graph, triples, t))
  }

  // Qualified counts and complements

  predicate CountsQualified(q: Node) {
    || q == Owl(QualifiedCardinality) || q == Owl(MinQualifiedCardinality) || q == Owl(MaxQualifiedCardinality)
  }

  lemma QualifiedAreOther()
    ensures Other(Owl(QualifiedCardinality)) && Other(Owl(MinQualifiedCardinality))
    ensures Other(Owl(MaxQualifiedCardinality)) && Other(ON_DATA_RANGE)
  {
    hide Owl, Rdfs, TYPE, FIRST, REST, NIL, MeaningOf;
    Meanings();
  }

  lemma QualifiedDoNotMark()
    ensures !Marking(Owl(QualifiedCardinality)) && !Marking(Owl(MinQualifiedCardinality))
    ensures !Marking(Owl(MaxQualifiedCardinality)) && !Marking(ON_DATA_RANGE)
  {
    hide Owl, Rdfs, TYPE, FIRST, REST, NIL, MeaningOf;
    Meanings();
  }

  lemma PlainTriple(graph: set<Triple>, triples: set<Triple>, t: Triple)
    requires CountsQualified(t.p) || t.p == ON_DATA_RANGE
    ensures NamesNeither(graph, triples, t) && !MarksObject(graph, triples, t)
  {
    hide Owl, Other, Foreign, NamesNeither, Quantifies;
    OwlForeign();
    QualifiedAreOther();
    QualifiedDoNotMark();
    OtherTriple(graph, triples, t);
  }

  lemma OnClassApart()
    ensures Foreign(ON_CLASS) && ON_CLASS != Owl(DisjointUnionOf) && ON_CLASS != Owl(Word.HasKey)
    ensures ON_CLASS != Owl(PropertyChainAxiom) && ON_CLASS != Owl(OnProperty) && ON_CLASS != Owl(OnProperties)
    ensures ON_CLASS != Owl(UnionOf) && ON_CLASS != Owl(IntersectionOf) && ON_CLASS != FIRST
  {
    hide Owl, Rdfs, TYPE, FIRST, REST, NIL, MeaningOf, Foreign;
    OwlForeign();
    Meanings();
  }

  lemma OnClassTriple(graph: set<Triple>, triples: set<Triple>, t: Triple)
    requires t.p == ON_CLASS
    ensures !HeadsClass(graph, t) && !HeadsObject(graph, t) && !DataSubject(graph, t)
    ensures HoldsClass(graph, triples, t) && !HoldsObject(graph, triples, t) && !HoldsData(graph, triples, t)
    ensures !ListsClasses(triples, t) && !ListsObjects(graph, triples, t) && !ListsData(graph, triples, t)
    ensures MarksObject(graph, triples, t)
  {
    hide Owl, Rdfs, TYPE, ClassSubject, ClassObject, ObjectSubject, ObjectObject, DataSubject, DataObject;
    hide RestrictsObject, AllData, Quantifies;
    OnClassApart();
    ForeignTriple(graph, t);
  }

  lemma ComplementApart()
    ensures var q := Owl(ComplementOf);
      && Foreign(q) && q != Owl(DisjointUnionOf) && q != Owl(Word.HasKey) && q != Owl(PropertyChainAxiom)
      && q != Owl(OnClass) && !IsFiller(q) && q != Owl(OnProperty) && q != Owl(OnProperties)
      && q != Owl(UnionOf) && q != Owl(IntersectionOf) && q != FIRST
  {
    hide Owl, Rdfs, TYPE, FIRST, REST, NIL, MeaningOf, Foreign;
    OwlForeign();
    Meanings();
  }

  lemma ComplementTriple(graph: set<Triple>, triples: set<Triple>, t: Triple)
    requires t.p == Owl(ComplementOf)
    ensures !HeadsClass(graph, t) && !HeadsObject(graph, t) && !DataSubject(graph, t)
    ensures HoldsClass(graph, triples, t) <==> Triple(t.s, TYPE, CLASS) in triples
    ensures !HoldsObject(graph, triples, t) && !HoldsData(graph, triples, t)
    ensures !ListsClasses(triples, t) && !ListsObjects(graph, triples, t) && !ListsData(graph, triples, t)
  {
    hide Owl, Rdfs, TYPE, ClassSubject, ClassObject, ObjectSubject, ObjectObject, DataSubject, DataObject;
    hide RestrictsObject, AllData, Quantifies;
    ComplementApart();
    ForeignTriple(graph, t);
  }

  // Descriptions

  function SimpleTriples(s: Node, p: Node, q: Node, v: Node): set<Triple> {
    {Triple(s, TYPE, RESTRICTION), Triple(s, ON_PROPERTY, p), Triple(s, q, v)}
  }

  // Which side a restriction of one value is on.
  predicate OnObjectSide(graph: set<Triple>, q: Node, p: Node, v: Node) {
    || q == Owl(HasSelf) || (q == Owl(HasValue) && IsResource(v)) || (Quantifies(q) && IsObject(graph, p))
  }

  lemma SimpleMarks(q: Node)
    requires SimpleProperty(q)
    ensures q != ON_CLASS && q != ON_PROPERTY && TYPE != ON_PROPERTY
  {
    hide Owl, Rdfs, TYPE, FIRST, REST, NIL, MeaningOf;
    Meanings();
  }

  // The triples of a restriction: one that may name a class, one that names
  // the property, and others that name nothing.
  ghost predicate Restricting(graph: set<Triple>, triples: set<Triple>, onProperty: Triple, filler: Triple) {
    && onProperty in triples && filler in triples && Triple(filler.s, TYPE, RESTRICTION) in triples
    && forall t :: t in triples ==> Within(graph, triples, onProperty, filler, t)
  }

  ghost predicate Within(graph: set<Triple>, triples: set<Triple>, onProperty: Triple, filler: Triple, t: Triple) {
    && t.s == filler.s && t.p != FIRST && !HeadsClass(graph, t) && !HeadsObject(graph, t) && !DataSubject(graph, t)
    && (t != filler ==> !HoldsClass(graph, triples, t) && !MarksObject(graph, triples, t))
    && (t != onProperty ==> !HoldsObject(graph, triples, t) && !HoldsData(graph, triples, t))
  }

  lemma RestrictingNames(graph: set<Triple>, triples: set<Triple>, onProperty: Triple, filler: Triple, n: Node)
    requires Restricting(graph, triples, onProperty, filler)
    ensures RestrictsObject(graph, triples, n) <==> n == filler.s && MarksObject(graph, triples, filler)
    ensures ClassNamed(graph, triples, n) <==>
      (n == filler.s && MarksObject(graph, triples, filler)) || (n == filler.o && HoldsClass(graph, triples, filler))
    ensures ObjectNamed(graph, triples, n) <==> n == onProperty.o && HoldsObject(graph, triples, onProperty)
    ensures DataNamed(graph, triples, n) <==> n == onProperty.o && HoldsData(graph, triples, onProperty)
  {
    hide HeadsClass, HeadsObject, DataSubject, HoldsClass, HoldsObject, HoldsData, MarksObject, ListsClasses;
    hide ListsObjects, ListsData, TYPE, FIRST, Owl;
  }

  lemma SimpleMarked(graph: set<Triple>, s: Node, p: Node, q: Node, v: Node)
    requires SimpleProperty(q)
    ensures MarksObject(graph, SimpleTriples(s, p, q, v), Triple(s, q, v)) <==> OnObjectSide(graph, q, p, v)
  {
    hide Owl, TYPE, IsObject, Quantifies;
    SimpleMarks(q);
    assert Triple(s, ON_PROPERTY, p) in SimpleTriples(s, p, q, v);
  }

  lemma TypeWithin(graph: set<Triple>, triples: set<Triple>, onProperty: Triple, filler: Triple)
    requires filler.p != TYPE && onProperty.p == ON_PROPERTY
    ensures Within(graph, triples, onProperty, filler, Triple(filler.s, TYPE, RESTRICTION))
  {
    hide Owl, TYPE, FIRST, HeadsClass, HeadsObject, DataSubject, HoldsClass, HoldsObject, HoldsData, ListsClasses;
    hide ListsObjects, ListsData, MarksObject;
    RestrictionTriple(graph, triples, Triple(filler.s, TYPE, RESTRICTION));
    TypeIsOther();
  }

  lemma PropertyWithin(graph: set<Triple>, triples: set<Triple>, onProperty: Triple, filler: Triple)
    requires filler.s == onProperty.s && onProperty.p == ON_PROPERTY
    ensures Within(graph, triples, onProperty, filler, onProperty)
  {
    hide Owl, TYPE, FIRST, HeadsClass, HeadsObject, DataSubject, HoldsClass, HoldsObject, HoldsData, ListsClasses;
    hide ListsObjects, ListsData, MarksObject;
    OnPropertyTriple(graph, triples, onProperty);
    OnPropertyApart();
  }

  lemma SimpleRestricts(graph: set<Triple>, s: Node, p: Node, q: Node, v: Node)
    requires SimpleProperty(q)
    ensures Restricting(graph, SimpleTriples(s, p, q, v), Triple(s, ON_PROPERTY, p), Triple(s, q, v))
  {
    var triples := SimpleTriples(s, p, q, v);
    var b, c := Triple(s, ON_PROPERTY, p), Triple(s, q, v);
    NotFirst(q);
    SimpleTriple(graph, triples, c);
    assert Within(graph, triples, b, c, c) by {
      hide Owl, TYPE, FIRST, HeadsClass, HeadsObject, DataSubject, HoldsClass, HoldsObject, HoldsData, MarksObject;
    }
    hide Within, HeadsClass, HeadsObject, DataSubject, HoldsClass, HoldsObject, HoldsData, ListsClasses, ListsObjects;
    hide ListsData, SimpleProperty;
    TypeWithin(graph, triples, b, c);
    PropertyWithin(graph, triples, b, c);
  }

  lemma SimpleNames(graph: set<Triple>, s: Node, p: Node, q: Node, v: Node, n: Node)
    requires SimpleProperty(q)
    ensures var triples, side := SimpleTriples(s, p, q, v), OnObjectSide(graph, q, p, v);
      && (ClassNamed(graph, triples, n) <==> side && (n == s || (n == v && IsFiller(q))))
      && (ObjectNamed(graph, triples, n) <==> side && n == p)
      && (DataNamed(graph, triples, n) <==> !side && n == p)
  {
    hide SimpleTriples, Restricting, OnObjectSide, RestrictsObject, HeadsClass, HeadsObject, DataSubject, HoldsClass;
    hide HoldsObject, HoldsData, ListsClasses, ListsObjects, ListsData, SimpleProperty, IsFiller, MarksObject;
    hide ClassNamed, ObjectNamed, DataNamed, ON_PROPERTY;
    var triples := SimpleTriples(s, p, q, v);
    SimpleRestricts(graph, s, p, q, v);
    SimpleMarked(graph, s, p, q, v);
    OnPropertyTriple(graph, triples, Triple(s, ON_PROPERTY, p));
    SimpleTriple(graph, triples, Triple(s, q, v));
    RestrictingNames(graph, triples, Triple(s, ON_PROPERTY, p), Triple(s, q, v), n);
    RestrictingNames(graph, triples, Triple(s, ON_PROPERTY, p), Triple(s, q, v), s);
  }

  // Qualified counts

  function QualifiedTriples(s: Node, p: Node, q: Node, v: Node, f: Node, filler: Node): set<Triple> {
    {Triple(s, TYPE, RESTRICTION), Triple(s, ON_PROPERTY, p), Triple(s, q, v), Triple(s, f, filler)}
  }

  lemma QualifiedRestricts(graph: set<Triple>, s: Node, p: Node, q: Node, v: Node, f: Node, filler: Node)
    requires CountsQualified(q) && (f == ON_CLASS || f == ON_DATA_RANGE)
    ensures Restricting(graph, QualifiedTriples(s, p, q, v, f, filler), Triple(s, ON_PROPERTY, p), Triple(s, f, filler))
  {
    hide Within, TYPE, FIRST, CountsQualified, ON_CLASS, ON_DATA_RANGE, RESTRICTION;
    var triples := QualifiedTriples(s, p, q, v, f, filler);
    var b, c, d := Triple(s, ON_PROPERTY, p), Triple(s, q, v), Triple(s, f, filler);
    NotFirst(q);
    NotFirst(f);
    QualifiedWithin(graph, triples, b, c, d);
    TypeWithin(graph, triples, b, d);
    PropertyWithin(graph, triples, b, d);
  }

  lemma QualifiedWithin(graph: set<Triple>, triples: set<Triple>, onProperty: Triple, count: Triple, filler: Triple)
    requires CountsQualified(count.p) && (filler.p == ON_CLASS || filler.p == ON_DATA_RANGE) && count.s == filler.s
    ensures Within(graph, triples, onProperty, filler, count) && Within(graph, triples, onProperty, filler, filler)
  {
    hide Owl, TYPE, FIRST, HeadsClass, HeadsObject, DataSubject, HoldsClass, HoldsObject, HoldsData, ListsClasses;
    hide ListsObjects, ListsData, MarksObject, CountsQualified;
    PlainTriple(graph, triples, count);
    if filler.p == ON_CLASS {
      OnClassTriple(graph, triples, filler);
    } else {
      PlainTriple(graph, triples, filler);
    }
    NotFirst(count.p);
    NotFirst(filler.p);
  }

  lemma QualifiedNames(graph: set<Triple>, s: Node, p: Node, q: Node, v: Node, f: Node, filler: Node, n: Node)
    requires CountsQualified(q) && (f == ON_CLASS || f == ON_DATA_RANGE)
    ensures var triples, side := QualifiedTriples(s, p, q, v, f, filler), f == ON_CLASS;
      && (ClassNamed(graph, triples, n) <==> side && (n == s || n == filler))
      && (ObjectNamed(graph, triples, n) <==> side && n == p)
      && (DataNamed(graph, triples, n) <==> !side && n == p)
  {
    hide QualifiedTriples, Restricting, RestrictsObject, HeadsClass, HeadsObject, DataSubject, HoldsClass;
    hide HoldsObject, HoldsData, ListsClasses, ListsObjects, ListsData, CountsQualified, MarksObject, ClassNamed;
    hide ObjectNamed, DataNamed, ON_PROPERTY, ON_CLASS, ON_DATA_RANGE;
    var triples := QualifiedTriples(s, p, q, v, f, filler);
    QualifiedRestricts(graph, s, p, q, v, f, filler);
    OnPropertyTriple(graph, triples, Triple(s, ON_PROPERTY, p));
    if f == ON_CLASS {
      OnClassTriple(graph, triples, Triple(s, f, filler));
    } else {
      PlainTriple(graph, triples, Triple(s, f, filler));
    }
    RestrictingNames(graph, triples, Triple(s, ON_PROPERTY, p), Triple(s, f, filler), n);
    RestrictingNames(graph, triples, Triple(s, ON_PROPERTY, p), Triple(s, f, filler), s);
  }

  lemma NotFirst(q: Node)
    requires SimpleProperty(q) || CountsQualified(q) || q == ON_CLASS || q == ON_DATA_RANGE || q == Owl(ComplementOf)
    ensures q != FIRST && q != TYPE && TYPE != FIRST && ON_PROPERTY != FIRST && TYPE != ON_PROPERTY
  {
    hide Owl, Rdfs, TYPE, FIRST, REST, NIL, MeaningOf;
    Meanings();
  }

  lemma RestrictionTriple(graph: set<Triple>, triples: set<Triple>, t: Triple)
    requires t.p == TYPE && (t.o == RESTRICTION || t.o == DATATYPE || t.o == NEGATIVE_ASSERTION)
    ensures NamesNeither(graph, triples, t) && !MarksObject(graph, triples, t)
  {
    hide Owl, TYPE, HeadsClass, HeadsObject, HoldsClass, HoldsObject, HoldsData, ListsClasses, ListsObjects;
    hide ListsData, ClassSubject, ClassObject, ObjectSubject, ObjectObject, DataSubject, DataObject, MarksObject;
    TypeTriple(graph, triples, t);
    DescribedTypes();
    TypePositions(graph, t);
  }

  // The type of a description is no type of a class, a property or a group.
  predicate NoType(r: Node) {
    && r != Owl(Class) && r != Owl(ObjectProperty) && r != Owl(InverseFunctionalProperty) && r != Owl(ReflexiveProperty)
    && r != Owl(IrreflexiveProperty) && r != Owl(SymmetricProperty) && r != Owl(AsymmetricProperty)
    && r != Owl(TransitiveProperty) && r != Owl(FunctionalProperty) && r != Owl(DatatypeProperty)
    && r != Owl(AllDisjointClasses) && r != Owl(AllDisjointProperties)
  }

  lemma DescribedTypes()
    ensures NoType(RESTRICTION) && NoType(DATATYPE) && NoType(NEGATIVE_ASSERTION)
  {
    hide Owl, Rdfs, TYPE, FIRST, REST, NIL, MeaningOf;
    Meanings();
  }

  // Complements and negative assertions

  function ComplementTriples(s: Node, r: Node, o: Node): set<Triple> {
    {Triple(s, TYPE, r), Triple(s, Owl(ComplementOf), o)}
  }

  // A type that only names classes.
  lemma ClassTypeTriple(graph: set<Triple>, triples: set<Triple>, t: Triple)
    requires t.p == TYPE && t.o == CLASS
    ensures HeadsClass(graph, t) && !HeadsObject(graph, t) && !DataSubject(graph, t)
    ensures !HoldsClass(graph, triples, t) && !HoldsObject(graph, triples, t) && !HoldsData(graph, triples, t)
    ensures !ListsClasses(triples, t) && !ListsObjects(graph, triples, t) && !ListsData(graph, triples, t)
  {
    hide Owl, TYPE, HeadsClass, HeadsObject, HoldsClass, HoldsObject, HoldsData, ListsClasses, ListsObjects;
    hide ListsData, ClassSubject, ClassObject, ObjectSubject, ObjectObject, DataSubject, DataObject, MarksObject;
    TypeTriple(graph, triples, t);
    ClassIsNoProperty();
    TypePositions(graph, t);
  }

  // The type is none of a property or of a group.
  predicate NoPropertyType(r: Node) {
    && r != Owl(ObjectProperty) && r != Owl(InverseFunctionalProperty) && r != Owl(ReflexiveProperty)
    && r != Owl(IrreflexiveProperty) && r != Owl(SymmetricProperty) && r != Owl(AsymmetricProperty)
    && r != Owl(TransitiveProperty) && r != Owl(FunctionalProperty) && r != Owl(DatatypeProperty)
  }

  lemma ClassIsNoProperty()
    ensures NoPropertyType(CLASS) && CLASS != Owl(AllDisjointClasses) && CLASS != Owl(AllDisjointProperties)
    ensures CLASS != RESTRICTION && DATATYPE != RESTRICTION && CLASS != DATATYPE && NEGATIVE_ASSERTION != RESTRICTION
  {
    hide Owl, Rdfs, TYPE, FIRST, REST, NIL, MeaningOf;
    Meanings();
  }

  // Triples that name nothing one by one name nothing together.
  lemma NothingNamed(graph: set<Triple>, triples: set<Triple>, n: Node)
    requires forall t :: t in triples ==> NamesNeither(graph, triples, t)
    requires Triple(n, TYPE, RESTRICTION) !in triples
    ensures !ClassNamed(graph, triples, n) && !ObjectNamed(graph, triples, n) && !DataNamed(graph, triples, n)
  {
    hide HeadsClass, HeadsObject, DataSubject, HoldsClass, HoldsObject, HoldsData, ListsClasses, ListsObjects;
    hide ListsData, TYPE, Owl, Listed;
  }

  // One triple names its subject, the other its object.
  lemma PairNames(graph: set<Triple>, a: Triple, b: Triple, n: Node)
    requires a.s == b.s && a.p != FIRST && b.p != FIRST && Triple(n, TYPE, RESTRICTION) !in {a, b}
    requires HeadsClass(graph, a) && !HeadsClass(graph, b)
    requires !HoldsClass(graph, {a, b}, a) && HoldsClass(graph, {a, b}, b)
    ensures ClassNamed(graph, {a, b}, n) <==> n == b.s || n == b.o
  {
    hide HeadsClass, HoldsClass, ListsClasses, TYPE, FIRST, Owl, RestrictsObject;
    assert a in {a, b} && b in {a, b};
  }

  lemma PairNamesNoProperty(graph: set<Triple>, a: Triple, b: Triple, n: Node)
    requires a.p != FIRST && b.p != FIRST
    requires forall t :: t in {a, b} ==> !HeadsObject(graph, t) && !DataSubject(graph, t)
    requires forall t :: t in {a, b} ==> !HoldsObject(graph, {a, b}, t) && !HoldsData(graph, {a, b}, t)
    ensures !ObjectNamed(graph, {a, b}, n) && !DataNamed(graph, {a, b}, n)
  {
    hide HeadsClass, HeadsObject, DataSubject, HoldsClass, HoldsObject, HoldsData, ListsClasses, ListsObjects;
    hide ListsData, TYPE, FIRST, Owl, RestrictsObject;
  }

  lemma ComplementTypes(s: Node, r: Node, o: Node, n: Node)
    requires r == CLASS || r == DATATYPE
    ensures Triple(n, TYPE, RESTRICTION) !in ComplementTriples(s, r, o)
    ensures r == DATATYPE ==> Triple(s, TYPE, CLASS) !in ComplementTriples(s, r, o)
  {
    hide Owl, Rdfs, TYPE, NoPropertyType;
    ClassIsNoProperty();
    NotFirst(Owl(ComplementOf));
  }

  lemma ComplementNames(graph: set<Triple>, s: Node, r: Node, o: Node, n: Node)
    requires r == CLASS || r == DATATYPE
    ensures var triples := ComplementTriples(s, r, o);
      && (ClassNamed(graph, triples, n) <==> r == CLASS && (n == s || n == o))
      && !ObjectNamed(graph, triples, n) && !DataNamed(graph, triples, n)
  {
    hide HeadsClass, HeadsObject, DataSubject, HoldsClass, HoldsObject, HoldsData, ListsClasses, ListsObjects;
    hide ListsData, TYPE, FIRST, Owl, ClassNamed, ObjectNamed, DataNamed, MarksObject;
    var triples := ComplementTriples(s, r, o);
    var a, b := Triple(s, TYPE, r), Triple(s, Owl(ComplementOf), o);
    NotFirst(Owl(ComplementOf));
    ComplementTypes(s, r, o, n);
    ComplementTriple(graph, triples, b);
    assert a in triples;
    assert CLASS != DATATYPE by { ClassIsNoProperty(); }
    if r == CLASS {
      ClassTypeTriple(graph, triples, a);
      PairNames(graph, a, b, n);
      PairNamesNoProperty(graph, a, b, n);
    } else {
      RestrictionTriple(graph, triples, a);
      NothingNamed(graph, triples, n);
    }
  }

  predicate NegationProperty(q: Node) {
    || q == SOURCE_INDIVIDUAL || q == ASSERTION_PROPERTY || q == TARGET_INDIVIDUAL || q == TARGET_VALUE
  }

  lemma NegationIsOther(q: Node)
    requires NegationProperty(q)
    ensures Foreign(q) && q != TYPE
  {
    hide Owl, Rdfs, TYPE, FIRST, REST, NIL, MeaningOf, Foreign;
    OwlForeign();
    Meanings();
  }

  lemma SourceIsOther()
    ensures Other(SOURCE_INDIVIDUAL) && Other(ASSERTION_PROPERTY)
  {
    hide Owl, Rdfs, TYPE, FIRST, REST, NIL, MeaningOf;
    Meanings();
  }

  lemma TargetIsOther()
    ensures Other(TARGET_INDIVIDUAL) && Other(TARGET_VALUE)
  {
    hide Owl, Rdfs, TYPE, FIRST, REST, NIL, MeaningOf;
    Meanings();
  }

  lemma NegationNames(graph: set<Triple>, triples: set<Triple>, n: Node)
    requires forall t :: t in triples ==> (t.p == TYPE && t.o == NEGATIVE_ASSERTION) || NegationProperty(t.p)
    ensures !ClassNamed(graph, triples, n) && !ObjectNamed(graph, triples, n) && !DataNamed(graph, triples, n)
  {
    ClassIsNoProperty();
    forall t | t in triples ensures NamesNeither(graph, triples, t) && t != Triple(n, TYPE, RESTRICTION) {
      if t.p == TYPE && t.o == NEGATIVE_ASSERTION {
        RestrictionTriple(graph, triples, t);
      } else {
        NegationIsOther(t.p);
        SourceIsOther();
        TargetIsOther();
        hide Other, Foreign, NamesNeither, Owl, TYPE;
        OtherTriple(graph, triples, t);
      }
    }
    hide NamesNeither, NegationProperty, NoPropertyType, Owl, TYPE, ClassNamed, ObjectNamed, DataNamed;
    NothingNamed(graph, triples, n);
  }

  // Lists

  lemma ListIsOther()
    ensures Other(FIRST) && Other(REST)
  {
    hide Owl, Rdfs, TYPE, FIRST, REST, NIL, MeaningOf;
    Meanings();
  }

  lemma ListIsForeign()
    ensures Foreign(FIRST) && Foreign(REST)
  {
    hide Owl, Rdfs, TYPE, FIRST, REST, NIL, MeaningOf;
    Meanings();
  }

  lemma ListIsApart()
    ensures !Marking(FIRST) && !Marking(REST) && FIRST != REST && TYPE != FIRST && TYPE != REST
  {
    hide Owl, Rdfs, TYPE, FIRST, REST, NIL, MeaningOf;
    Meanings();
  }

  lemma CellTriple(graph: set<Triple>, triples: set<Triple>, t: Triple)
    requires t.p == FIRST || t.p == REST
    ensures NamesNeither(graph, triples, t) && !MarksObject(graph, triples, t)
  {
    hide Owl, Other, Foreign, NamesNeither, Quantifies;
    ListIsOther();
    ListIsForeign();
    ListIsApart();
    OtherTriple(graph, triples, t);
  }

  lemma {:induction false} ValueListed(entries: seq<Entry>, n: Node)
    ensures n in ValuesOf(entries) <==> exists i :: 0 <= i < |entries| && entries[i].value == Some(n)
  {
    if entries != [] {
      ValueListed(entries[1..], n);
      assert forall i :: 0 < i < |entries| ==> entries[i] == entries[1..][i - 1];
    }
  }

  lemma SeqListed(list: Seq, n: Node)
    ensures Listed(list.AsTriples(), n) <==> n in list.Values()
    ensures forall t :: t in list.AsTriples() ==> t.p == FIRST || t.p == REST
  {
    hide FIRST, REST;
    ValueListed(list.entries, n);
    assert FIRST != REST by { ListIsApart(); }
    if i :| 0 <= i < |list.entries| && list.entries[i].value == Some(n) {
      assert Triple(list.entries[i].cell, FIRST, n) in list.AsTriples();
    }
  }

  // A list on a node that may have a type.
  function OwnerTriples(list: Seq, s: Node, declared: Option<Node>, head: Triple): set<Triple> {
    list.AsTriples() + TypeTriples(s, declared) + {head}
  }

  // The type of the node: a class, a group, or one that names nothing.
  predicate OwnerType(r: Node) {
    r == CLASS || r == DATATYPE || r == Owl(AllDisjointClasses) || r == Owl(AllDisjointProperties) || r == ALL_DIFFERENT
  }

  lemma OwnerTypesApart()
    ensures NoPropertyType(CLASS) && NoPropertyType(DATATYPE) && NoPropertyType(ALL_DIFFERENT)
    ensures NoPropertyType(Owl(AllDisjointClasses)) && NoPropertyType(Owl(AllDisjointProperties))
    ensures forall r :: OwnerType(r) ==> r != RESTRICTION
  {
    hide Owl, Rdfs, NoPropertyType;
    ClassIsNoProperty();
    GroupsAreNoProperty();
  }

  lemma GroupsAreNoProperty()
    ensures NoPropertyType(DATATYPE) && NoPropertyType(ALL_DIFFERENT)
    ensures NoPropertyType(Owl(AllDisjointClasses)) && NoPropertyType(Owl(AllDisjointProperties))
    ensures ALL_DIFFERENT != RESTRICTION
    ensures Owl(AllDisjointClasses) != RESTRICTION && Owl(AllDisjointProperties) != RESTRICTION
  {
    hide Owl, Rdfs, TYPE, FIRST, REST, NIL, MeaningOf;
    Meanings();
  }

  lemma OwnerTypeTriple(graph: set<Triple>, triples: set<Triple>, t: Triple)
    requires t.p == TYPE && OwnerType(t.o)
    ensures (HeadsClass(graph, t) <==> t.o == CLASS) && !HeadsObject(graph, t) && !DataSubject(graph, t)
    ensures !HoldsClass(graph, triples, t) && !HoldsObject(graph, triples, t) && !HoldsData(graph, triples, t)
    ensures ListsClasses(triples, t) <==> t.o == Owl(AllDisjointClasses)
    ensures ListsObjects(graph, triples, t) <==> t.o == Owl(AllDisjointProperties) && !AllData(graph, triples)
    ensures ListsData(graph, triples, t) <==> t.o == Owl(AllDisjointProperties) && AllData(graph, triples)
  {
    hide Owl, TYPE, HeadsClass, HeadsObject, HoldsClass, HoldsObject, HoldsData, ListsClasses, ListsObjects;
    hide ListsData, ClassSubject, ClassObject, ObjectSubject, ObjectObject, DataSubject, DataObject, MarksObject;
    hide AllData;
    TypeTriple(graph, triples, t);
    OwnerTypesApart();
    TypePositions(graph, t);
  }

  // The head of the list names no object of it.
  ghost predicate Heading(graph: set<Triple>, triples: set<Triple>, head: Triple) {
    && head.p != FIRST && head.p != TYPE && !DataSubject(graph, head)
    && !HoldsClass(graph, triples, head) && !HoldsObject(graph, triples, head) && !HoldsData(graph, triples, head)
  }

  lemma OwnerCells(graph: set<Triple>, triples: set<Triple>, list: Seq)
    ensures forall t :: t in list.AsTriples() ==> NamesNeither(graph, triples, t) && t.p != TYPE
  {
    ListIsApart();
    forall t | t in list.AsTriples() ensures NamesNeither(graph, triples, t) && t.p != TYPE {
      SeqListed(list, t.o);
      hide NamesNeither;
      CellTriple(graph, triples, t);
    }
  }

  function TypeOf(s: Node, declared: Option<Node>): Triple {
    Triple(s, TYPE, if declared.Some? then declared.value else DATATYPE)
  }

  // The type of the owner names no object of its triple.
  ghost predicate Typing(graph: set<Triple>, triples: set<Triple>, t: Triple) {
    && t.p == TYPE && t.o != RESTRICTION && !HeadsObject(graph, t) && !DataSubject(graph, t)
    && !HoldsClass(graph, triples, t) && !HoldsObject(graph, triples, t) && !HoldsData(graph, triples, t)
  }

  // The triples of a list, the one that holds it, and maybe a type.
  ghost predicate Owning(triples: set<Triple>, cells: set<Triple>, head: Triple, typed: bool, t: Triple) {
    forall u :: u in triples <==> u in cells || u == head || (typed && u == t)
  }

  lemma OwnerOwns(list: Seq, s: Node, declared: Option<Node>, head: Triple)
    ensures Owning(OwnerTriples(list, s, declared, head), list.AsTriples(), head, declared.Some?, TypeOf(s, declared))
  {
    hide Seq.AsTriples, TYPE, DATATYPE;
  }

  // Every cell names nothing.
  ghost predicate Silent(graph: set<Triple>, triples: set<Triple>, cells: set<Triple>) {
    forall t :: t in cells ==> NamesNeither(graph, triples, t) && t.p != TYPE
  }

  lemma OwnedClasses(graph: set<Triple>, triples: set<Triple>, cells: set<Triple>, head: Triple, typed: bool,
      t: Triple, n: Node)
    requires Owning(triples, cells, head, typed, t) && Silent(graph, triples, cells)
    requires head.s == t.s && Heading(graph, triples, head) && Typing(graph, triples, t)
    ensures ClassNamed(graph, triples, n) <==>
      || (n == head.s && (HeadsClass(graph, head) || (typed && HeadsClass(graph, t))))
      || (Listed(triples, n) && (ListsClasses(triples, head) || (typed && ListsClasses(triples, t))))
  {
    hide HeadsClass, HeadsObject, DataSubject, HoldsClass, HoldsObject, HoldsData, ListsClasses, ListsObjects;
    hide ListsData, TYPE, FIRST, Owl, RestrictsObject, Listed;
  }

  lemma OwnedObjects(graph: set<Triple>, triples: set<Triple>, cells: set<Triple>, head: Triple, typed: bool,
      t: Triple, n: Node)
    requires Owning(triples, cells, head, typed, t) && Silent(graph, triples, cells)
    requires head.s == t.s && Heading(graph, triples, head) && Typing(graph, triples, t)
    ensures ObjectNamed(graph, triples, n) <==>
      || (n == head.s && HeadsObject(graph, head))
      || (Listed(triples, n) && (ListsObjects(graph, triples, head) || (typed && ListsObjects(graph, triples, t))))
    ensures DataNamed(graph, triples, n) <==>
      Listed(triples, n) && (ListsData(graph, triples, head) || (typed && ListsData(graph, triples, t)))
  {
    hide HeadsClass, HeadsObject, DataSubject, HoldsClass, HoldsObject, HoldsData, ListsClasses, ListsObjects;
    hide ListsData, TYPE, FIRST, Owl, RestrictsObject, Listed;
  }

  // The heads

  predicate OwnerProperty(p: Node) {
    || p == Owl(IntersectionOf) || p == Owl(UnionOf) || p == Owl(OneOf) || p == MEMBERS || p == Owl(DisjointUnionOf)
    || p == Owl(Word.HasKey) || p == Owl(PropertyChainAxiom)
  }

  lemma OwnerForeign(p: Node)
    requires OwnerProperty(p)
    ensures Foreign(p) && p != FIRST && p != TYPE
  {
    hide Owl, Rdfs, TYPE, FIRST, REST, NIL, MeaningOf, Foreign;
    OwlForeign();
    Meanings();
  }

  lemma OwnerNotHolding(p: Node)
    requires OwnerProperty(p)
    ensures p != Owl(OnClass) && p != Owl(ComplementOf) && !IsFiller(p) && p != Owl(OnProperty) &&
        p != Owl(OnProperties)
  {
    hide Owl, Rdfs, TYPE, FIRST, REST, NIL, MeaningOf;
    Meanings();
  }

  lemma HeadTriple(graph: set<Triple>, triples: set<Triple>, t: Triple)
    requires OwnerProperty(t.p)
    ensures Heading(graph, triples, t)
    ensures HeadsClass(graph, t) <==> t.p == Owl(DisjointUnionOf) || t.p == Owl(Word.HasKey)
    ensures HeadsObject(graph, t) <==> t.p == Owl(PropertyChainAxiom)
    ensures ListsClasses(triples, t) <==>
      || t.p == Owl(DisjointUnionOf)
      || ((t.p == Owl(UnionOf) || t.p == Owl(IntersectionOf)) && Triple(t.s, TYPE, CLASS) in triples)
    ensures (ListsObjects(graph, triples, t) <==> t.p == Owl(PropertyChainAxiom)) && !ListsData(graph, triples, t)
  {
    OwnerForeign(t.p);
    OwnerNotHolding(t.p);
    ForeignTriple(graph, t);
    hide Owl, TYPE, FIRST, Foreign, OwnerProperty, IsFiller, ClassSubject, ClassObject, ObjectSubject, ObjectObject;
    hide DataSubject, DataObject, RestrictsObject, AllData;
  }

  lemma HeadWords()
    ensures Owl(DisjointUnionOf) != Owl(Word.HasKey) && Owl(DisjointUnionOf) != Owl(PropertyChainAxiom)
    ensures Owl(DisjointUnionOf) != Owl(UnionOf) && Owl(DisjointUnionOf) != Owl(IntersectionOf)
    ensures Owl(Word.HasKey) != Owl(PropertyChainAxiom) && Owl(Word.HasKey) != Owl(UnionOf)
    ensures Owl(Word.HasKey) != Owl(IntersectionOf) && Owl(PropertyChainAxiom) != Owl(UnionOf)
    ensures Owl(PropertyChainAxiom) != Owl(IntersectionOf)
    ensures Plain(Owl(OneOf)) && Plain(MEMBERS)
  {
    hide Owl, Rdfs, TYPE, FIRST, REST, NIL, MeaningOf;
    Meanings();
  }

  // A list that names nothing by its property.
  predicate Plain(p: Node) {
    && p != Owl(DisjointUnionOf) && p != Owl(Word.HasKey) && p != Owl(PropertyChainAxiom) && p != Owl(UnionOf)
    && p != Owl(IntersectionOf)
  }

  lemma TypeWords()
    ensures CLASS != DATATYPE && CLASS != ALL_DIFFERENT && CLASS != Owl(AllDisjointClasses)
    ensures CLASS != Owl(AllDisjointProperties) && DATATYPE != Owl(AllDisjointClasses)
    ensures DATATYPE != Owl(AllDisjointProperties) && ALL_DIFFERENT != Owl(AllDisjointClasses)
    ensures ALL_DIFFERENT != Owl(AllDisjointProperties) && Owl(AllDisjointClasses) != Owl(AllDisjointProperties)
  {
    hide Owl, Rdfs, TYPE, FIRST, REST, NIL, MeaningOf;
    Meanings();
  }

  // Lists by their classes

  predicate FillerList(c: ListClass) {
    c == DataSomeValuesFromNary || c == DataAllValuesFromNary
  }

  lemma ListingClasses(c: ListClass)
    requires !FillerList(c)
    ensures var p, declared := ListTemplate(c).property, ListTemplate(c).declared;
      && OwnerProperty(p) && (declared.Some? ==> OwnerType(declared.value))
      && (NamesClass(Listing(c)) <==> p == Owl(DisjointUnionOf) || p == Owl(Word.HasKey) || declared == Some(CLASS))
      && (ClassMembers(Listing(c)) <==>
        || p == Owl(DisjointUnionOf) || ((p == Owl(UnionOf) || p == Owl(IntersectionOf)) && declared == Some(CLASS))
        || declared == Some(Owl(AllDisjointClasses)))
  {
    hide Owl, DATATYPE;
    HeadWords();
    TypeWords();
  }

  lemma ListingProperties(c: ListClass)
    requires !FillerList(c)
    ensures var p, declared := ListTemplate(c).property, ListTemplate(c).declared;
      && (NamesObjectProperty(Listing(c)) <==> p == Owl(PropertyChainAxiom))
      && (c == SubObjectPropertyOfChain <==> p == Owl(PropertyChainAxiom))
      && (c == DisjointObjectPropertiesNary || c == DisjointDataPropertiesNary <==>
          declared == Some(Owl(AllDisjointProperties)))
  {
    hide Owl, DATATYPE;
    HeadWords();
    TypeWords();
  }

  lemma ListingConforms(e: Element, c: ListClass)
    requires Conforms(e) && e.kind == Listing(c)
    ensures e.ListOwner? && |e.list.entries| > 1 && e.list.Valid()
    ensures ListTemplate(c).Operands? && e.property == ListTemplate(c).property &&
        e.declared == ListTemplate(c).declared
    ensures FillsSlots(e.values, ListTemplate(c).slots)
  {
    hide ListTemplate, FillsSlots;
    ListMinimum(c);
  }

  lemma ListMinimum(c: ListClass)
    ensures ListTemplate(c).Operands? && ListTemplate(c).minimum >= 1
    ensures !FillerList(c) ==> ListTemplate(c).slots == []
  {
    hide Owl, DATATYPE, CLASS, RESTRICTION, MEMBERS, ON_PROPERTIES, ALL_DIFFERENT;
  }

  // The two ways to say that all entries are data properties.
  lemma DataEntries(graph: set<Triple>, triples: set<Triple>, list: Seq)
    requires |list.entries| > 1 && forall t :: t in triples && t.p == FIRST <==> t in list.AsTriples() && t.p == FIRST
    ensures AllData(graph, triples) <==> MembersAreData(graph, list)
  {
    hide FIRST, REST, TYPE, DATATYPE_PROPERTY;
    assert FIRST != REST by { ListIsApart(); }
    if AllData(graph, triples) {
      forall i | 0 <= i < |list.entries| && list.entries[i].value.Some?
        ensures Has(graph, list.entries[i].value.value, TYPE, DATATYPE_PROPERTY)
      {
        var t := Triple(list.entries[i].cell, FIRST, list.entries[i].value.value);
        assert t in list.AsTriples();
      }
    }
  }

  lemma ListingSets(e: Element, c: ListClass, n: Node)
    requires e.ListOwner? && e.kind == Listing(c)
    ensures n in ClassExpressions(e) <==>
      IsResource(n) && ((n == e.name && NamesClass(e.kind)) || (n in e.list.Values() && ClassMembers(e.kind)))
    ensures n in ObjectProperties(e) <==>
      IsResource(n) && ((n == e.name && NamesObjectProperty(e.kind)) ||
          (n in e.list.Values() && ObjectPropertyMembers(e.kind)))
    ensures n in DataProperties(e) <==> IsResource(n) && n in e.list.Values() && DataPropertyMembers(e.kind)
  {
    hide Owl, ON_PROPERTY, ON_CLASS, Seq.Values;
  }

  // The parts of an element with a list.
  ghost predicate OwnerParts(e: Element, head: Triple, t: Triple) {
    && e.ListOwner? && e.list.entries != [] && head == Triple(e.name, e.property, e.list.Name())
    && t == TypeOf(e.name, e.declared) && Owning(e.AsTriples(), e.list.AsTriples(), head, e.declared.Some?, t)
  }

  lemma OwnerOf(e: Element) returns (head: Triple, t: Triple)
    requires e.ListOwner? && e.list.entries != [] && e.values == []
    ensures OwnerParts(e, head, t)
  {
    hide Seq.AsTriples, TYPE, DATATYPE;
    head, t := Triple(e.name, e.property, e.list.Name()), TypeOf(e.name, e.declared);
    OwnerOwns(e.list, e.name, e.declared, head);
    assert FieldTriples(e.name, e.values) == {};
    assert e.AsTriples() == OwnerTriples(e.list, e.name, e.declared, head);
  }

  lemma OwnerLists(e: Element, head: Triple, t: Triple, n: Node)
    requires OwnerParts(e, head, t) && OwnerProperty(e.property)
    ensures Listed(e.AsTriples(), n) <==> n in e.list.Values()
  {
    hide TYPE, FIRST, REST, Owl, Seq.Values, Seq.AsTriples, Element.AsTriples, Foreign, OwnerProperty, Marking;
    OwnerForeign(e.property);
    ListIsApart();
    SeqListed(e.list, n);
  }

  lemma OwnerHasType(e: Element, head: Triple, t: Triple, r: Node)
    requires OwnerParts(e, head, t) && OwnerProperty(e.property)
    ensures Triple(e.name, TYPE, r) in e.AsTriples() <==> e.declared == Some(r)
  {
    hide TYPE, FIRST, REST, Owl, Seq.AsTriples, Element.AsTriples, Foreign, OwnerProperty, Marking, DATATYPE, Listed;
    OwnerForeign(e.property);
    ListIsApart();
    SeqListed(e.list, r);
  }

  lemma TypingOf(graph: set<Triple>, triples: set<Triple>, t: Triple)
    requires t.p == TYPE && OwnerType(t.o)
    ensures Typing(graph, triples, t)
  {
    hide HeadsClass, HeadsObject, DataSubject, HoldsClass, HoldsObject, HoldsData, ListsClasses, ListsObjects;
    hide ListsData, TYPE, Owl, OwnerType, AllData, NoPropertyType;
    OwnerTypesApart();
    OwnerTypeTriple(graph, triples, t);
  }

  lemma OwnerTyped(graph: set<Triple>, e: Element, head: Triple, t: Triple)
    requires OwnerParts(e, head, t) && OwnerProperty(e.property) && (e.declared.Some? ==> OwnerType(e.declared.value))
    ensures var triples := e.AsTriples();
      Heading(graph, triples, head) && Typing(graph, triples, t) && Silent(graph, triples, e.list.AsTriples())
  {
    var triples := e.AsTriples();
    assert OwnerType(DATATYPE);
    hide TYPE, FIRST, Owl, Listed, Seq.AsTriples, Element.AsTriples, NamesNeither, OwnerType, OwnerProperty, Heading;
    hide Typing;
    HeadTriple(graph, triples, head);
    TypingOf(graph, triples, t);
    OwnerCells(graph, triples, e.list);
  }

  // The theorem: what an element names is what its triples name.
  ghost predicate NamesWhatItPrints(graph: set<Triple>, e: Element, n: Node) {
    && (n in ClassExpressions(e) <==> IsResource(n) && ClassNamed(graph, e.AsTriples(), n))
    && (n in ObjectProperties(e) <==> IsResource(n) && ObjectNamed(graph, e.AsTriples(), n))
    && (n in DataProperties(e) <==> IsResource(n) && DataNamed(graph, e.AsTriples(), n))
  }

  lemma MembersSide(graph: set<Triple>, all: seq<Element>, e: Element)
    requires Chosen(graph, all, e) && e.ListOwner?
    ensures e.kind == Listing(DisjointObjectPropertiesNary) ==> !MembersAreData(graph, e.list)
    ensures e.kind == Listing(DisjointDataPropertiesNary) ==> MembersAreData(graph, e.list)
  {
    hide MembersAreData, TYPE, DATATYPE_PROPERTY;
  }

  lemma FirstsOf(triples: set<Triple>, cells: set<Triple>, head: Triple, typed: bool, t: Triple)
    requires Owning(triples, cells, head, typed, t) && head.p != FIRST && t.p != FIRST
    ensures forall u :: u in triples && u.p == FIRST <==> u in cells && u.p == FIRST
  {
    hide FIRST;
  }

  lemma ListingSide(graph: set<Triple>, all: seq<Element>, e: Element, head: Triple, t: Triple)
    requires Chosen(graph, all, e) && OwnerParts(e, head, t) && |e.list.entries| > 1
    requires head.p != FIRST && t.p != FIRST
    ensures e.kind == Listing(DisjointObjectPropertiesNary) ==> !AllData(graph, e.AsTriples())
    ensures e.kind == Listing(DisjointDataPropertiesNary) ==> AllData(graph, e.AsTriples())
  {
    hide Chosen, AllData, MembersAreData, Seq.AsTriples, Element.AsTriples, FIRST, TYPE, Owning;
    MembersSide(graph, all, e);
    FirstsOf(e.AsTriples(), e.list.AsTriples(), head, e.declared.Some?, t);
    DataEntries(graph, e.AsTriples(), e.list);
  }

  // What the head and the type of the list say is what the class says.
  ghost predicate SaysClasses(graph: set<Triple>, triples: set<Triple>, kind: Kind, head: Triple, typed: bool,
      t: Triple) {
    && (HeadsClass(graph, head) || (typed && HeadsClass(graph, t)) <==> NamesClass(kind))
    && (ListsClasses(triples, head) || (typed && ListsClasses(triples, t)) <==> ClassMembers(kind))
  }

  ghost predicate SaysObjects(graph: set<Triple>, triples: set<Triple>, kind: Kind, head: Triple, typed: bool,
      t: Triple) {
    && (HeadsObject(graph, head) <==> NamesObjectProperty(kind))
    && (ListsObjects(graph, triples, head) || (typed && ListsObjects(graph, triples, t)) <==>
        ObjectPropertyMembers(kind))
  }

  ghost predicate SaysData(graph: set<Triple>, triples: set<Triple>, kind: Kind, head: Triple, typed: bool, t: Triple) {
    ListsData(graph, triples, head) || (typed && ListsData(graph, triples, t)) <==> DataPropertyMembers(kind)
  }

  lemma ClassesSaid(graph: set<Triple>, e: Element, c: ListClass, head: Triple, t: Triple)
    requires Conforms(e) && e.kind == Listing(c) && !FillerList(c) && OwnerParts(e, head, t)
    ensures SaysClasses(graph, e.AsTriples(), e.kind, head, e.declared.Some?, t)
  {
    hide Conforms, ListTemplate, NamesClass, ClassMembers, OwnerProperty, OwnerType, Heading, Typing, Silent, Owning;
    hide HeadsClass, HeadsObject, DataSubject, HoldsClass, HoldsObject, HoldsData, ListsClasses, ListsObjects;
    hide ListsData, Listed, Element.AsTriples, Seq.AsTriples, Seq.Values, TYPE, Owl;
    var triples := e.AsTriples();
    ListingConforms(e, c);
    ListingClasses(c);
    OwnerHasType(e, head, t, CLASS);
    HeadTriple(graph, triples, head);
    if e.declared.Some? {
      OwnerTypeTriple(graph, triples, t);
    }
  }

  lemma PropertiesSaid(graph: set<Triple>, all: seq<Element>, e: Element, c: ListClass, head: Triple, t: Triple)
    requires Conforms(e) && Chosen(graph, all, e) && e.kind == Listing(c) && !FillerList(c) && OwnerParts(e, head, t)
    ensures SaysObjects(graph, e.AsTriples(), e.kind, head, e.declared.Some?, t)
    ensures SaysData(graph, e.AsTriples(), e.kind, head, e.declared.Some?, t)
  {
    hide Conforms, Chosen, ListTemplate, NamesClass, ClassMembers, OwnerType, Owning, HeadsClass, HeadsObject;
    hide ListsClasses, ListsObjects, ListsData, Element.AsTriples, Seq.AsTriples, TYPE, FIRST, Owl, AllData;
    hide OwnerProperty, Heading, ClassMembers, Listed;
    var triples := e.AsTriples();
    ListingConforms(e, c);
    ListingClasses(c);
    ListingProperties(c);
    OwnerForeign(e.property);
    HeadTriple(graph, triples, head);
    assert TYPE != FIRST by { ListIsApart(); }
    ListingSide(graph, all, e, head, t);
    if e.declared.Some? {
      OwnerTypeTriple(graph, triples, t);
    }
  }

  lemma OwnedNames(graph: set<Triple>, e: Element, head: Triple, t: Triple, n: Node)
    requires OwnerParts(e, head, t) && SaysClasses(graph, e.AsTriples(), e.kind, head, e.declared.Some?, t)
    requires SaysObjects(graph, e.AsTriples(), e.kind, head, e.declared.Some?, t)
    requires SaysData(graph, e.AsTriples(), e.kind, head, e.declared.Some?, t)
    requires OwnerProperty(e.property) && (e.declared.Some? ==> OwnerType(e.declared.value))
    ensures ClassNamed(graph, e.AsTriples(), n) <==>
      (n == e.name && NamesClass(e.kind)) || (n in e.list.Values() && ClassMembers(e.kind))
    ensures ObjectNamed(graph, e.AsTriples(), n) <==>
      (n == e.name && NamesObjectProperty(e.kind)) || (n in e.list.Values() && ObjectPropertyMembers(e.kind))
    ensures DataNamed(graph, e.AsTriples(), n) <==> n in e.list.Values() && DataPropertyMembers(e.kind)
  {
    hide OwnerProperty, OwnerType, Heading, Typing, Silent, Owning, HeadsClass, HeadsObject, DataSubject, HoldsClass;
    hide HoldsObject, HoldsData, ListsClasses, ListsObjects, ListsData, Listed, Element.AsTriples, Seq.AsTriples;
    hide Seq.Values, TYPE, FIRST, Owl, ClassNamed, ObjectNamed, DataNamed, NamesClass, ClassMembers;
    hide NamesObjectProperty, ObjectPropertyMembers, DataPropertyMembers, DATATYPE;
    OwnerTyped(graph, e, head, t);
    OwnerLists(e, head, t, n);
    OwnedClasses(graph, e.AsTriples(), e.list.AsTriples(), head, e.declared.Some?, t, n);
    OwnedObjects(graph, e.AsTriples(), e.list.AsTriples(), head, e.declared.Some?, t, n);
  }

  lemma ListingNames(graph: set<Triple>, all: seq<Element>, e: Element, c: ListClass, n: Node)
    requires Conforms(e) && Chosen(graph, all, e) && e.kind == Listing(c) && !FillerList(c)
    ensures NamesWhatItPrints(graph, e, n)
  {
    ListingConforms(e, c);
    ListMinimum(c);
    ListingClasses(c);
    ListingSets(e, c, n);
    hide OwnerProperty, OwnerType, NamesClass, ClassMembers, NamesObjectProperty, ObjectPropertyMembers;
    hide DataPropertyMembers, Seq.Values, FillsSlots, Seq.Valid, Conforms, Chosen, ListTemplate, ClassExpressions;
    hide ObjectProperties, DataProperties, ClassNamed, ObjectNamed, DataNamed, Element.AsTriples, FillerList;
    hide OwnerParts, SaysClasses, SaysObjects, SaysData;
    var head, t := OwnerOf(e);
    ClassesSaid(graph, e, c, head, t);
    PropertiesSaid(graph, all, e, c, head, t);
    OwnedNames(graph, e, head, t, n);
  }

  // Restrictions over a list of properties

  lemma OnPropertiesApart()
    ensures Foreign(ON_PROPERTIES) && !Marking(ON_PROPERTIES) && !IsFiller(ON_PROPERTIES) && ON_PROPERTIES != FIRST
    ensures ON_PROPERTIES != Owl(DisjointUnionOf) && ON_PROPERTIES != Owl(Word.HasKey)
    ensures ON_PROPERTIES != Owl(PropertyChainAxiom) && ON_PROPERTIES != Owl(OnClass)
    ensures ON_PROPERTIES != Owl(ComplementOf) && ON_PROPERTIES != ON_PROPERTY && ON_PROPERTIES != TYPE
    ensures ON_PROPERTIES != Owl(UnionOf) && ON_PROPERTIES != Owl(IntersectionOf)
  {
    hide Owl, Rdfs, TYPE, FIRST, REST, NIL, MeaningOf, Foreign;
    OwlForeign();
    Meanings();
  }

  lemma OnPropertiesTriple(graph: set<Triple>, triples: set<Triple>, t: Triple)
    requires t.p == ON_PROPERTIES
    ensures !HeadsClass(graph, t) && !HeadsObject(graph, t) && !DataSubject(graph, t) && !MarksObject(graph, triples, t)
    ensures !HoldsClass(graph, triples, t) && !HoldsObject(graph, triples, t) && !HoldsData(graph, triples, t)
    ensures !ListsClasses(triples, t) && !ListsObjects(graph, triples, t) && ListsData(graph, triples, t)
  {
    hide Owl, TYPE, FIRST, ClassSubject, ClassObject, ObjectSubject, ObjectObject, DataSubject, DataObject;
    hide RestrictsObject, AllData, Quantifies, Foreign;
    OnPropertiesApart();
    ForeignTriple(graph, t);
  }

  // Nothing in it is over an object property.
  ghost predicate Unmarked(graph: set<Triple>, triples: set<Triple>) {
    forall t :: t in triples ==> !MarksObject(graph, triples, t)
  }

  ghost predicate Spans(triples: set<Triple>, cells: set<Triple>, a: Triple, b: Triple, c: Triple) {
    forall u :: u in triples <==> u in cells || u == a || u == b || u == c
  }

  ghost predicate OneList(graph: set<Triple>, triples: set<Triple>, cells: set<Triple>, typed: Triple,
      filler: Triple, head: Triple) {
    && Spans(triples, cells, typed, filler, head)
    && Silent(graph, triples, cells) && NamesNeither(graph, triples, typed) && NamesNeither(graph, triples, filler)
    && Unmarked(graph, triples) && !HeadsClass(graph, head) && !HeadsObject(graph, head) && !DataSubject(graph, head)
    && !HoldsClass(graph, triples, head) && !HoldsObject(graph, triples, head) && !HoldsData(graph, triples, head)
    && !ListsClasses(triples, head) && !ListsObjects(graph, triples, head) && ListsData(graph, triples, head)
  }

  lemma OneListNames(graph: set<Triple>, triples: set<Triple>, cells: set<Triple>, typed: Triple, filler: Triple,
      head: Triple, n: Node)
    requires OneList(graph, triples, cells, typed, filler, head)
    ensures !ClassNamed(graph, triples, n) && !ObjectNamed(graph, triples, n)
    ensures DataNamed(graph, triples, n) <==> Listed(triples, n)
  {
    hide HeadsClass, HeadsObject, DataSubject, HoldsClass, HoldsObject, HoldsData, ListsClasses, ListsObjects;
    hide ListsData, TYPE, FIRST, Owl, Listed, MarksObject;
  }

  // Without a single property a filler marks nothing.
  lemma FillerUnmarked(graph: set<Triple>, triples: set<Triple>, t: Triple)
    requires IsFiller(t.p) && forall u :: u in triples ==> u.p != ON_PROPERTY
    ensures !MarksObject(graph, triples, t)
  {
    hide Owl;
    FillerIsNoMark();
  }

  lemma FillerIsNoMark()
    ensures Owl(SomeValuesFrom) != Owl(HasSelf) && Owl(SomeValuesFrom) != Owl(HasValue)
    ensures Owl(AllValuesFrom) != Owl(HasSelf) && Owl(AllValuesFrom) != Owl(HasValue)
    ensures Owl(SomeValuesFrom) != Owl(OnClass) && Owl(AllValuesFrom) != Owl(OnClass)
  {
    hide Owl, Rdfs, TYPE, FIRST, REST, NIL, MeaningOf;
    Meanings();
  }

  // The parts of such a restriction.
  ghost predicate FillerParts(e: Element, typed: Triple, filler: Triple, head: Triple) {
    && e.ListOwner? && e.list.entries != [] && typed == Triple(e.name, TYPE, RESTRICTION) && IsFiller(filler.p)
    && head == Triple(e.name, ON_PROPERTIES, e.list.Name())
    && Spans(e.AsTriples(), e.list.AsTriples(), typed, filler, head)
  }

  lemma FillerOf(e: Element, c: ListClass) returns (typed: Triple, filler: Triple, head: Triple)
    requires Conforms(e) && e.kind == Listing(c) && FillerList(c)
    ensures FillerParts(e, typed, filler, head)
  {
    ListingConforms(e, c);
    var f := e.values[0];
    typed, filler := Triple(e.name, TYPE, RESTRICTION), Triple(e.name, f.property, f.operand);
    head := Triple(e.name, ON_PROPERTIES, e.list.Name());
    assert FieldTriples(e.name, e.values) == {filler};
    assert e.declared == Some(RESTRICTION) && e.property == ON_PROPERTIES;
    hide Conforms, FieldTriples, ListTemplate, Seq.AsTriples, TYPE, Owl;
  }

  lemma FillerIsOneList(graph: set<Triple>, e: Element, typed: Triple, filler: Triple, head: Triple)
    requires FillerParts(e, typed, filler, head)
    ensures OneList(graph, e.AsTriples(), e.list.AsTriples(), typed, filler, head)
    ensures forall n :: Listed(e.AsTriples(), n) <==> n in e.list.Values()
  {
    hide HeadsClass, HeadsObject, DataSubject, HoldsClass, HoldsObject, HoldsData, ListsClasses, ListsObjects;
    hide ListsData, TYPE, FIRST, Owl, Listed, MarksObject, Seq.AsTriples, Seq.Values, Element.AsTriples, IsFiller;
    hide NamesNeither, Unmarked, Spans, RESTRICTION, ON_PROPERTIES;
    var triples := e.AsTriples();
    FillerCells(graph, e, typed, filler, head);
    OwnerCells(graph, triples, e.list);
    OnPropertiesTriple(graph, triples, head);
    RestrictionTriple(graph, triples, typed);
    FillerNamesNeither(graph, triples, filler);
  }

  lemma FillerNamesNeither(graph: set<Triple>, triples: set<Triple>, t: Triple)
    requires IsFiller(t.p) && Unmarked(graph, triples)
    ensures NamesNeither(graph, triples, t)
  {
    hide HeadsClass, HeadsObject, DataSubject, HoldsClass, HoldsObject, HoldsData, ListsClasses, ListsObjects;
    hide ListsData, MarksObject, Owl, TYPE;
    SimpleTriple(graph, triples, t);
  }

  lemma FillerListed(e: Element, typed: Triple, filler: Triple, head: Triple, n: Node)
    requires FillerParts(e, typed, filler, head)
    ensures Listed(e.AsTriples(), n) <==> n in e.list.Values()
  {
    hide TYPE, FIRST, REST, Owl, Seq.Values, Seq.AsTriples, Element.AsTriples, IsFiller, Marking, Foreign;
    hide ON_PROPERTIES, RESTRICTION;
    ListIsApart();
    OnPropertiesApart();
    FillerNotCell(filler.p);
    SeqListed(e.list, n);
  }

  // There is no single property in it.
  lemma FillerHasNone(e: Element, typed: Triple, filler: Triple, head: Triple, u: Triple)
    requires FillerParts(e, typed, filler, head) && u in e.AsTriples()
    ensures u.p != ON_PROPERTY
    ensures u.p == FIRST || u.p == REST || u == typed || u == filler || u == head
  {
    hide TYPE, FIRST, REST, Owl, Seq.Values, Seq.AsTriples, Element.AsTriples, IsFiller, Marking, Foreign;
    hide ON_PROPERTIES, RESTRICTION, Listed;
    OnPropertyApart();
    OnPropertiesApart();
    TypeIsOther();
    FillerApart(filler.p);
    FillerNotCell(filler.p);
    SeqListed(e.list, u.o);
  }

  lemma FillerMarks(graph: set<Triple>, e: Element, typed: Triple, filler: Triple, head: Triple, t: Triple)
    requires FillerParts(e, typed, filler, head) && t in e.AsTriples()
    ensures !MarksObject(graph, e.AsTriples(), t)
  {
    hide FIRST, REST, Seq.AsTriples, Element.AsTriples, TYPE, Owl, MarksObject, Spans;
    var triples := e.AsTriples();
    forall u | u in triples ensures u.p != ON_PROPERTY { FillerHasNone(e, typed, filler, head, u); }
    FillerHasNone(e, typed, filler, head, t);
    if t.p == FIRST || t.p == REST {
      CellTriple(graph, triples, t);
    } else if t == filler {
      FillerUnmarked(graph, triples, t);
    } else if t == head {
      OnPropertiesTriple(graph, triples, t);
    } else {
      UnmarkedTriple(graph, triples, t);
    }
  }

  lemma FillerCells(graph: set<Triple>, e: Element, typed: Triple, filler: Triple, head: Triple)
    requires FillerParts(e, typed, filler, head)
    ensures Unmarked(graph, e.AsTriples())
    ensures forall n :: Listed(e.AsTriples(), n) <==> n in e.list.Values()
  {
    assert e.ListOwner?;
    hide FillerParts, Listed, MarksObject, Element.AsTriples, Seq.Values;
    forall t | t in e.AsTriples() ensures !MarksObject(graph, e.AsTriples(), t) {
      FillerMarks(graph, e, typed, filler, head, t);
    }
    forall n ensures Listed(e.AsTriples(), n) <==> n in e.list.Values() { FillerListed(e, typed, filler, head, n); }
  }

  lemma UnmarkedTriple(graph: set<Triple>, triples: set<Triple>, t: Triple)
    requires t.p == TYPE || t.p == ON_PROPERTY
    ensures !MarksObject(graph, triples, t)
  {
    hide Owl, TYPE, Other, Foreign, IsFiller, Quantifies;
    TypeIsOther();
    OnPropertyApart();
  }

  lemma FillerNotCell(q: Node)
    requires IsFiller(q)
    ensures q != FIRST && q != REST && ON_PROPERTY != REST && ON_PROPERTIES != REST
  {
    hide Owl, Rdfs, TYPE, FIRST, REST, NIL, MeaningOf;
    Meanings();
  }

  lemma FillerListSets(e: Element, c: ListClass, n: Node)
    requires e.ListOwner? && e.kind == Listing(c) && FillerList(c)
    ensures n !in ClassExpressions(e) && n !in ObjectProperties(e)
    ensures n in DataProperties(e) <==> IsResource(n) && n in e.list.Values()
  {
    hide ClassExpressions, ObjectProperties, DataProperties, Seq.Values;
    ListingSets(e, c, n);
  }

  lemma FillerListNames(graph: set<Triple>, e: Element, c: ListClass, n: Node)
    requires Conforms(e) && e.kind == Listing(c) && FillerList(c)
    ensures NamesWhatItPrints(graph, e, n)
  {
    hide Conforms, ListTemplate, ClassExpressions, ObjectProperties, DataProperties, ClassNamed, ObjectNamed;
    hide DataNamed, Element.AsTriples, FillerParts, OneList, Listed, Seq.Values, Seq.AsTriples, FillsSlots;
    ListingConforms(e, c);
    FillerListSets(e, c, n);
    var typed, filler, head := FillerOf(e, c);
    FillerIsOneList(graph, e, typed, filler, head);
    OneListNames(graph, e.AsTriples(), e.list.AsTriples(), typed, filler, head, n);
  }

  // Descriptions without a list

  lemma FrameSets(e: Element, c: FrameClass, n: Node)
    requires e.Described? && e.kind == Frame(c)
    ensures n in ClassExpressions(e) <==>
      || (n == e.name && IsResource(n) && NamesClass(e.kind))
      || (ClassFiller(e.kind) && n in ValuesAt(e,
          {Owl(ComplementOf), Owl(SomeValuesFrom), Owl(AllValuesFrom), ON_CLASS}))
    ensures n in ObjectProperties(e) <==> RestrictsObjectProperty(e.kind) && n in ValuesAt(e, {ON_PROPERTY})
    ensures n in DataProperties(e) <==> RestrictsDataProperty(e.kind) && n in ValuesAt(e, {ON_PROPERTY})
  {
    hide Owl, ON_PROPERTY, ON_CLASS, ValuesAt;
  }

  lemma PairValues(e: Element, a: Field, b: Field, properties: set<Node>, n: Node)
    requires e.Described? && e.values == [a, b]
    ensures n in ValuesAt(e, properties) <==>
      IsResource(n) && ((a.property in properties && n == a.operand) || (b.property in properties && n == b.operand))
  {
  }

  // Classes of restrictions with one value, and on which side they are.

  predicate SimpleClass(c: FrameClass) {
    || c in {ObjectHasSelf, ObjectHasValue, DataHasValue} || CountClass(c) || FillerClass(c)
  }

  predicate CountClass(c: FrameClass) {
    || c in {ObjectMinCardinality, ObjectMaxCardinality, ObjectExactCardinality}
    || c in {DataMinCardinality, DataMaxCardinality, DataExactCardinality}
  }

  predicate FillerClass(c: FrameClass) {
    c in {ObjectSomeValuesFrom, ObjectAllValuesFrom, DataSomeValuesFrom, DataAllValuesFrom}
  }

  predicate DataClass(c: FrameClass) {
    || c in {DataHasValue, DataMinCardinality, DataMaxCardinality, DataExactCardinality}
    || c in {DataSomeValuesFrom, DataAllValuesFrom}
  }

  lemma SimpleClassNames(c: FrameClass)
    requires SimpleClass(c)
    ensures NamesClass(Frame(c)) <==> !DataClass(c)
    ensures ClassFiller(Frame(c)) <==> !DataClass(c) && FillerClass(c)
    ensures (RestrictsObjectProperty(Frame(c)) <==> !DataClass(c)) &&
        (RestrictsDataProperty(Frame(c)) <==> DataClass(c))
  {
  }

  // The property of the class besides owl:onProperty.
  ghost predicate SecondSlot(c: FrameClass, q: Node, test: Test) {
    FrameTemplate(c) == Slots(RESTRICTION, [Slot(ON_PROPERTY, Iri), Slot(q, test)])
  }

  lemma SimpleTemplate(c: FrameClass) returns (q: Node, test: Test)
    requires SimpleClass(c)
    ensures SecondSlot(c, q, test) && SimpleProperty(q) && (IsFiller(q) <==> FillerClass(c))
    ensures c == ObjectHasSelf ==> q == Owl(HasSelf)
    ensures c == ObjectHasValue ==> q == Owl(HasValue) && test == Resource
    ensures c == DataHasValue ==> q == Owl(HasValue) && test == LiteralNode
    ensures CountClass(c) || FillerClass(c) ==> Quantifies(q)
  {
    hide Owl, RESTRICTION;
    SimpleDistinct();
    q, test := FrameTemplate(c).slots[1].property, FrameTemplate(c).slots[1].test;
    hide FrameTemplate;
    SimpleSlot(c, q, test);
  }

  lemma SimpleSlot(c: FrameClass, q: Node, test: Test)
    requires SimpleClass(c)
    requires q == FrameTemplate(c).slots[1].property && test == FrameTemplate(c).slots[1].test
    ensures SecondSlot(c, q, test)
    ensures FillerClass(c) <==> q == Owl(SomeValuesFrom) || q == Owl(AllValuesFrom)
    ensures CountClass(c) <==> q == Owl(Cardinality) || q == Owl(MinCardinality) || q == Owl(MaxCardinality)
    ensures c == ObjectHasSelf ==> q == Owl(HasSelf)
    ensures c == ObjectHasValue ==> q == Owl(HasValue) && test == Resource
    ensures c == DataHasValue ==> q == Owl(HasValue) && test == LiteralNode
  {
    hide Owl, RESTRICTION, FrameTemplate, SecondSlot, CountClass, FillerClass;
    SimpleDistinct();
    if CountClass(c) {
      CountSlot(c, q, test);
    } else if FillerClass(c) {
      FillerSlot(c, q, test);
    } else {
      OtherSlot(c, q, test);
    }
  }

  lemma CountSlot(c: FrameClass, q: Node, test: Test)
    requires CountClass(c)
    requires q == FrameTemplate(c).slots[1].property && test == FrameTemplate(c).slots[1].test
    ensures SecondSlot(c, q, test) && (q == Owl(Cardinality) || q == Owl(MinCardinality) || q == Owl(MaxCardinality))
    ensures !FillerClass(c) && c !in {ObjectHasSelf, ObjectHasValue, DataHasValue}
  {
    hide Owl, RESTRICTION;
  }

  lemma FillerSlot(c: FrameClass, q: Node, test: Test)
    requires FillerClass(c)
    requires q == FrameTemplate(c).slots[1].property && test == FrameTemplate(c).slots[1].test
    ensures SecondSlot(c, q, test) && (q == Owl(SomeValuesFrom) || q == Owl(AllValuesFrom))
    ensures c !in {ObjectHasSelf, ObjectHasValue, DataHasValue}
  {
    hide Owl, RESTRICTION;
  }

  lemma OtherSlot(c: FrameClass, q: Node, test: Test)
    requires c in {ObjectHasSelf, ObjectHasValue, DataHasValue}
    requires q == FrameTemplate(c).slots[1].property && test == FrameTemplate(c).slots[1].test
    ensures SecondSlot(c, q, test) && q == Owl(if c == ObjectHasSelf then HasSelf else HasValue)
    ensures c == ObjectHasValue ==> test == Resource
    ensures c == DataHasValue ==> test == LiteralNode
  {
    hide Owl, RESTRICTION;
  }

  lemma SimpleDistinct()
    ensures !IsFiller(Owl(HasSelf)) && !IsFiller(Owl(HasValue)) && !IsFiller(Owl(Cardinality))
    ensures !IsFiller(Owl(MinCardinality)) && !IsFiller(Owl(MaxCardinality))
    ensures !Quantifies(Owl(HasSelf)) && !Quantifies(Owl(HasValue)) && Owl(HasSelf) != Owl(HasValue)
  {
    hide Owl, Rdfs, TYPE, FIRST, REST, NIL, MeaningOf;
    Meanings();
  }

  lemma FamilyIsTyping(graph: set<Triple>, p: Node, isObject: bool)
    requires PropertyFamily(graph, p) == Ok(isObject)
    ensures isObject <==> IsObject(graph, p)
  {
    hide Owl, TYPE;
  }

  // What the graph decides about the side.
  lemma FamilySide(graph: set<Triple>, all: seq<Element>, e: Element, c: FrameClass)
    requires Chosen(graph, all, e) && e.kind == Frame(c) && (CountClass(c) || FillerClass(c))
    ensures e.Described? && |e.values| > 0 && PropertyFamily(graph, e.values[0].operand) == Ok(!DataClass(c))
  {
    hide PropertyFamily;
  }

  lemma SimpleShape(e: Element, c: FrameClass, q: Node, test: Test)
    requires Conforms(e) && e.kind == Frame(c) && SecondSlot(c, q, test)
    ensures e.Described? && |e.values| == 2 && e.values[0].property == ON_PROPERTY && e.values[1].property == q
    ensures Meets(e.values[1].operand, test) && e.values[0].operand.IRI?
    ensures e.AsTriples() == SimpleTriples(e.name, e.values[0].operand, q, e.values[1].operand)
  {
    hide FrameTemplate, TYPE, RESTRICTION, Owl;
    assert e.rdfType == RESTRICTION && |e.values| == 2;
    assert Meets(e.values[0].operand, Iri) && Meets(e.values[1].operand, test);
  }

  lemma SimpleOnSide(graph: set<Triple>, all: seq<Element>, e: Element, c: FrameClass, q: Node, test: Test)
    requires Conforms(e) && Chosen(graph, all, e) && e.kind == Frame(c) && SimpleClass(c) && SecondSlot(c, q, test)
    requires c == ObjectHasSelf ==> q == Owl(HasSelf)
    requires c == ObjectHasValue ==> q == Owl(HasValue) && test == Resource
    requires c == DataHasValue ==> q == Owl(HasValue) && test == LiteralNode
    requires CountClass(c) || FillerClass(c) ==> Quantifies(q)
    ensures e.Described? && |e.values| == 2
    ensures OnObjectSide(graph, q, e.values[0].operand, e.values[1].operand) <==> !DataClass(c)
  {
    hide Conforms, FrameTemplate, Owl, PropertyFamily, IsObject, IsFiller, Chosen;
    SimpleShape(e, c, q, test);
    SimpleDistinct();
    if CountClass(c) || FillerClass(c) {
      FamilySide(graph, all, e, c);
      FamilyIsTyping(graph, e.values[0].operand, !DataClass(c));
      QuantifiesApart(q);
    }
  }

  lemma QuantifiesApart(q: Node)
    requires Quantifies(q)
    ensures q != Owl(HasSelf) && q != Owl(HasValue)
  {
    hide Owl, IsFiller;
    SimpleDistinct();
  }

  lemma SimpleFrameSets(e: Element, c: FrameClass, q: Node, n: Node)
    requires e.Described? && e.kind == Frame(c) && SimpleClass(c) && |e.values| == 2
    requires e.values[0].property == ON_PROPERTY && e.values[1].property == q && SimpleProperty(q)
    requires (IsFiller(q) <==> FillerClass(c)) && IsResource(e.values[0].operand)
    ensures n in ClassExpressions(e) <==>
      IsResource(n) && !DataClass(c) && (n == e.name || (n == e.values[1].operand && IsFiller(q)))
    ensures n in ObjectProperties(e) <==> !DataClass(c) && n == e.values[0].operand
    ensures n in DataProperties(e) <==> DataClass(c) && n == e.values[0].operand
  {
    hide Owl, ClassExpressions, ObjectProperties, DataProperties, ValuesAt, DataClass, FillerClass, SimpleClass;
    hide NamesClass, ClassFiller, RestrictsObjectProperty, RestrictsDataProperty, Marking, Foreign, SimpleProperty;
    FrameSets(e, c, n);
    SimpleClassNames(c);
    PairValues(e, e.values[0], e.values[1], {Owl(ComplementOf), Owl(SomeValuesFrom), Owl(AllValuesFrom), ON_CLASS}, n);
    PairValues(e, e.values[0], e.values[1], {ON_PROPERTY}, n);
    SimpleMarks(q);
    OnPropertyApart();
    SimpleApart(q);
  }

  lemma SimpleFrameNames(graph: set<Triple>, all: seq<Element>, e: Element, c: FrameClass, n: Node)
    requires Conforms(e) && Chosen(graph, all, e) && e.kind == Frame(c) && SimpleClass(c)
    ensures NamesWhatItPrints(graph, e, n)
  {
    hide Conforms, Chosen, FrameTemplate, SimpleClass, CountClass, FillerClass, DataClass, ClassExpressions;
    hide ObjectProperties, DataProperties, ClassNamed, ObjectNamed, DataNamed, SecondSlot, SimpleProperty, IsFiller;
    hide OnObjectSide, Owl, Element.AsTriples, Quantifies, Meets, SimpleTriples, ON_PROPERTY;
    var q, test := SimpleTemplate(c);
    SimpleShape(e, c, q, test);
    SimpleOnSide(graph, all, e, c, q, test);
    SimpleFrameSets(e, c, q, n);
    SimpleNames(graph, e.name, e.values[0].operand, q, e.values[1].operand, n);
  }

  // Qualified counts

  predicate QualifiedClass(c: FrameClass) {
    || c in {ObjectMinCardinalityQualified, ObjectMaxCardinalityQualified, ObjectExactCardinalityQualified}
    || DataQualified(c)
  }

  predicate DataQualified(c: FrameClass) {
    c in {DataMinCardinalityQualified, DataMaxCardinalityQualified, DataExactCardinalityQualified}
  }

  ghost predicate ThirdSlot(c: FrameClass, q: Node, f: Node) {
    FrameTemplate(c) == Slots(RESTRICTION, [Slot(ON_PROPERTY, Iri), Slot(q, Count), Slot(f, Resource)])
  }

  lemma QualifiedTemplate(c: FrameClass) returns (q: Node, f: Node)
    requires QualifiedClass(c)
    ensures ThirdSlot(c, q, f) && CountsQualified(q) && f == if DataQualified(c) then ON_DATA_RANGE else ON_CLASS
    ensures NamesClass(Frame(c)) <==> !DataQualified(c)
    ensures ClassFiller(Frame(c)) <==> !DataQualified(c)
    ensures RestrictsObjectProperty(Frame(c)) <==> !DataQualified(c)
    ensures RestrictsDataProperty(Frame(c)) <==> DataQualified(c)
  {
    hide Owl, RESTRICTION;
    q, f := FrameTemplate(c).slots[1].property, FrameTemplate(c).slots[2].property;
  }

  lemma QualifiedShape(e: Element, c: FrameClass, q: Node, f: Node)
    requires Conforms(e) && e.kind == Frame(c) && ThirdSlot(c, q, f)
    ensures e.Described? && |e.values| == 3 && e.values[0].property == ON_PROPERTY && e.values[1].property == q
    ensures e.values[2].property == f && e.values[0].operand.IRI? && IsResource(e.values[2].operand)
    ensures e.AsTriples() ==
      QualifiedTriples(e.name, e.values[0].operand, q, e.values[1].operand, f, e.values[2].operand)
  {
    hide FrameTemplate, TYPE, RESTRICTION, Owl, IsNonNegativeInteger;
    assert e.rdfType == RESTRICTION && |e.values| == 3;
    assert Meets(e.values[0].operand, Iri) && Meets(e.values[2].operand, Resource);
  }

  lemma TripleValues(e: Element, a: Field, b: Field, c: Field, properties: set<Node>, n: Node)
    requires e.Described? && e.values == [a, b, c]
    ensures n in ValuesAt(e, properties) <==>
      && IsResource(n)
      && ((a.property in properties && n == a.operand) || (b.property in properties && n == b.operand) ||
            (c.property in properties && n == c.operand))
  {
  }

  lemma QualifiedWords(q: Node, f: Node)
    requires CountsQualified(q) && (f == ON_CLASS || f == ON_DATA_RANGE)
    ensures NoFillerWord(q) && NoFillerWord(ON_PROPERTY) && q != ON_PROPERTY && f != ON_PROPERTY
    ensures NoFillerWord(ON_DATA_RANGE)
  {
    hide Owl, Rdfs, TYPE, FIRST, REST, NIL, MeaningOf;
    Meanings();
  }

  predicate NoFillerWord(q: Node) {
    q !in {Owl(ComplementOf), Owl(SomeValuesFrom), Owl(AllValuesFrom), ON_CLASS}
  }

  lemma QualifiedFrameNames(graph: set<Triple>, e: Element, c: FrameClass, n: Node)
    requires Conforms(e) && e.kind == Frame(c) && QualifiedClass(c)
    ensures NamesWhatItPrints(graph, e, n)
  {
    hide Conforms, FrameTemplate, QualifiedClass, DataQualified, ClassExpressions, ObjectProperties, DataProperties;
    hide ClassNamed, ObjectNamed, DataNamed, ThirdSlot, CountsQualified, Owl, Element.AsTriples, QualifiedTriples;
    hide ValuesAt, NamesClass, ClassFiller, RestrictsObjectProperty, RestrictsDataProperty;
    var q, f := QualifiedTemplate(c);
    QualifiedShape(e, c, q, f);
    QualifiedWords(q, f);
    FrameSets(e, c, n);
    var a, b, d := e.values[0], e.values[1], e.values[2];
    TripleValues(e, a, b, d, {Owl(ComplementOf), Owl(SomeValuesFrom), Owl(AllValuesFrom), ON_CLASS}, n);
    TripleValues(e, a, b, d, {ON_PROPERTY}, n);
    QualifiedNames(graph, e.name, a.operand, q, b.operand, f, d.operand, n);
  }

  // Complements and negative assertions

  lemma ComplementShape(e: Element, c: FrameClass)
    requires Conforms(e) && e.kind == Frame(c) && (c == ObjectComplementOf || c == DataComplementOf)
    ensures e.Described? && |e.values| == 1 && e.values[0].property == Owl(ComplementOf) &&
        IsResource(e.values[0].operand)
    ensures e.rdfType == if c == ObjectComplementOf then CLASS else DATATYPE
    ensures e.AsTriples() == ComplementTriples(e.name, e.rdfType, e.values[0].operand)
  {
    hide TYPE, CLASS, DATATYPE, Owl;
    assert Meets(e.values[0].operand, Resource);
  }

  lemma SingleValue(e: Element, a: Field, properties: set<Node>, n: Node)
    requires e.Described? && e.values == [a]
    ensures n in ValuesAt(e, properties) <==> IsResource(n) && a.property in properties && n == a.operand
  {
  }

  lemma ComplementSets(e: Element, c: FrameClass, n: Node)
    requires e.Described? && e.kind == Frame(c) && (c == ObjectComplementOf || c == DataComplementOf)
    requires |e.values| == 1 && e.values[0].property == Owl(ComplementOf)
    ensures n in ClassExpressions(e) <==>
        IsResource(n) && c == ObjectComplementOf && (n == e.name || n == e.values[0].operand)
    ensures n !in ObjectProperties(e) && n !in DataProperties(e)
  {
    hide ClassExpressions, ObjectProperties, DataProperties, Owl, ValuesAt;
    FrameSets(e, c, n);
    SingleValue(e, e.values[0], {Owl(ComplementOf), Owl(SomeValuesFrom), Owl(AllValuesFrom), ON_CLASS}, n);
  }

  lemma ComplementFrameNames(graph: set<Triple>, e: Element, c: FrameClass, n: Node)
    requires Conforms(e) && e.kind == Frame(c) && (c == ObjectComplementOf || c == DataComplementOf)
    ensures NamesWhatItPrints(graph, e, n)
  {
    hide Conforms, ClassExpressions, ObjectProperties, DataProperties, ClassNamed, ObjectNamed, DataNamed, Owl;
    hide Element.AsTriples, ComplementTriples, CLASS, DATATYPE;
    ComplementShape(e, c);
    ComplementSets(e, c, n);
    assert CLASS != DATATYPE by { ClassIsNoProperty(); }
    ComplementNames(graph, e.name, e.rdfType, e.values[0].operand, n);
  }

  predicate NegationClass(c: FrameClass) {
    c == NegativeObjectPropertyAssertion || c == NegativeDataPropertyAssertion
  }

  lemma NegationShape(e: Element, c: FrameClass)
    requires Conforms(e) && e.kind == Frame(c) && NegationClass(c)
    ensures e.Described? && e.rdfType == NEGATIVE_ASSERTION
    ensures forall i :: 0 <= i < |e.values| ==> NegationProperty(e.values[i].property)
  {
    hide TYPE, Owl, Meets;
  }

  lemma NegationSets(e: Element, c: FrameClass, n: Node)
    requires e.Described? && e.kind == Frame(c) && NegationClass(c)
    ensures n !in ClassExpressions(e) && n !in ObjectProperties(e) && n !in DataProperties(e)
  {
    hide ClassExpressions, ObjectProperties, DataProperties, Owl, ValuesAt;
    FrameSets(e, c, n);
  }

  lemma NegationFrameNames(graph: set<Triple>, e: Element, c: FrameClass, n: Node)
    requires Conforms(e) && e.kind == Frame(c) && NegationClass(c)
    ensures NamesWhatItPrints(graph, e, n)
  {
    hide Conforms, ClassExpressions, ObjectProperties, DataProperties, ClassNamed, ObjectNamed, DataNamed, Owl, TYPE;
    hide NegationProperty, NEGATIVE_ASSERTION;
    NegationShape(e, c);
    NegationSets(e, c, n);
    NegationNames(graph, e.AsTriples(), n);
  }

  lemma FrameClasses(c: FrameClass)
    ensures SimpleClass(c) || QualifiedClass(c) || NegationClass(c) || c == ObjectComplementOf || c == DataComplementOf
  {
  }

  lemma FrameNames(graph: set<Triple>, all: seq<Element>, e: Element, c: FrameClass, n: Node)
    requires Conforms(e) && Chosen(graph, all, e) && e.kind == Frame(c)
    ensures NamesWhatItPrints(graph, e, n)
  {
    hide SimpleClass, QualifiedClass, NegationClass, NamesWhatItPrints, Conforms, Chosen;
    FrameClasses(c);
    if SimpleClass(c) {
      SimpleFrameNames(graph, all, e, c, n);
    } else if QualifiedClass(c) {
      QualifiedFrameNames(graph, e, c, n);
    } else if NegationClass(c) {
      NegationFrameNames(graph, e, c, n);
    } else {
      ComplementFrameNames(graph, e, c, n);
    }
  }

  // Elements of one triple

  // The triple of an axiom, or a type that is none of a description.
  predicate SingleTriple(t: Triple) {
    || AxiomProperty(t.p)
    || (t.p == TYPE && t.o != RESTRICTION && t.o != Owl(AllDisjointClasses) && t.o != Owl(AllDisjointProperties))
  }

  lemma DescriptionsAreForeign()
    ensures Foreign(Owl(DisjointUnionOf)) && Foreign(Owl(Word.HasKey)) && Foreign(Owl(PropertyChainAxiom))
    ensures Foreign(Owl(OnClass)) && Foreign(Owl(ComplementOf)) && Foreign(Owl(SomeValuesFrom))
    ensures Foreign(Owl(AllValuesFrom)) && Foreign(Owl(OnProperty)) && Foreign(Owl(OnProperties))
    ensures Foreign(Owl(UnionOf)) && Foreign(Owl(IntersectionOf))
  {
    hide Owl, Foreign;
    OwlForeign();
  }

  lemma AxiomIsNotForeign(p: Node)
    requires AxiomProperty(p)
    ensures !Foreign(p)
  {
    hide AxiomProperty;
  }

  lemma AxiomIsOther(p: Node)
    requires AxiomProperty(p)
    ensures Other(p) && p != TYPE && p != FIRST
  {
    hide Owl, Rdfs, TYPE, FIRST, REST, Foreign, AxiomProperty;
    AxiomIsNotForeign(p);
    DescriptionsAreForeign();
    ListIsForeign();
    AxiomIsNoType();
  }

  lemma AxiomIsNoType()
    ensures !AxiomProperty(TYPE)
  {
    hide Owl, Rdfs, TYPE, FIRST, REST, NIL, MeaningOf;
    Meanings();
  }

  // Each triple on its own.
  ghost predicate Plainly(graph: set<Triple>, triples: set<Triple>, t: Triple) {
    && (HeadsClass(graph, t) <==> ClassSubject(graph, t)) && (HeadsObject(graph, t) <==> ObjectSubject(graph, t))
    && (HoldsClass(graph, triples, t) <==> ClassObject(graph, t))
    && (HoldsObject(graph, triples, t) <==> ObjectObject(graph, t))
    && (HoldsData(graph, triples, t) <==> DataObject(graph, t))
    && !ListsClasses(triples, t) && !ListsObjects(graph, triples, t) && !ListsData(graph, triples, t)
  }

  lemma AxiomPlainly(graph: set<Triple>, triples: set<Triple>, t: Triple)
    requires Other(t.p) && t.p != TYPE
    ensures Plainly(graph, triples, t)
  {
    hide Owl, Rdfs, TYPE, FIRST, ClassSubject, ClassObject, ObjectSubject, ObjectObject, DataSubject, DataObject;
    hide RestrictsObject, AllData;
  }

  lemma TypePlainly(graph: set<Triple>, triples: set<Triple>, t: Triple)
    requires t.p == TYPE && t.o != Owl(AllDisjointClasses) && t.o != Owl(AllDisjointProperties)
    ensures Plainly(graph, triples, t)
  {
    hide Owl, Rdfs, TYPE, FIRST, ClassSubject, ClassObject, ObjectSubject, ObjectObject, DataSubject, DataObject;
    hide HeadsClass, HeadsObject, HoldsClass, HoldsObject, HoldsData, ListsClasses, ListsObjects, ListsData, AllData;
    hide MarksObject;
    TypeTriple(graph, triples, t);
    TypePositions(graph, t);
  }

  lemma SingleSays(graph: set<Triple>, triples: set<Triple>, t: Triple)
    requires SingleTriple(t)
    ensures Plainly(graph, triples, t) && t.p != FIRST && (t.p == TYPE ==> t.o != RESTRICTION)
  {
    hide Plainly, Owl, TYPE, FIRST, AxiomProperty, Other;
    if t.p == TYPE {
      TypeIsOther();
      AxiomIsNoType();
      TypePlainly(graph, triples, t);
    } else {
      AxiomIsOther(t.p);
      AxiomPlainly(graph, triples, t);
    }
  }

  lemma SingleNames(graph: set<Triple>, t: Triple, n: Node)
    requires SingleTriple(t)
    ensures ClassNamed(graph, {t}, n) <==> (n == t.s && ClassSubject(graph, t)) || (n == t.o && ClassObject(graph, t))
    ensures ObjectNamed(graph, {t}, n) <==>
        (n == t.s && ObjectSubject(graph, t)) || (n == t.o && ObjectObject(graph, t))
    ensures DataNamed(graph, {t}, n) <==> (n == t.s && DataSubject(graph, t)) || (n == t.o && DataObject(graph, t))
  {
    hide HeadsClass, HeadsObject, DataSubject, HoldsClass, HoldsObject, HoldsData, ListsClasses, ListsObjects;
    hide ListsData, ClassSubject, ClassObject, ObjectSubject, ObjectObject, DataObject, TYPE, FIRST, Owl;
    hide SingleTriple, RestrictsObject, RESTRICTION, Listed, ClassNamed;
    SingleSays(graph, {t}, t);
    SingleClasses(graph, t, n);
    assert t in {t};
    assert !Listed({t}, n) by { NoneListed({t}); }
  }

  lemma NoneListed(triples: set<Triple>)
    requires forall t :: t in triples ==> t.p != FIRST
    ensures forall n :: !Listed(triples, n)
  {
    hide FIRST;
  }

  lemma SingleClasses(graph: set<Triple>, t: Triple, n: Node)
    requires Plainly(graph, {t}, t) && t.p != FIRST && (t.p == TYPE ==> t.o != RESTRICTION)
    ensures ClassNamed(graph, {t}, n) <==> (n == t.s && ClassSubject(graph, t)) || (n == t.o && ClassObject(graph, t))
  {
    hide HeadsClass, HeadsObject, DataSubject, HoldsClass, HoldsObject, HoldsData, ListsClasses, ListsObjects;
    hide ListsData, ClassSubject, ClassObject, ObjectSubject, ObjectObject, DataObject, TYPE, FIRST, Owl;
    hide RestrictsObject, Listed;
    NoneListed({t});
    assert t in {t};
  }

  lemma DeclaredSingle(e: Element)
    requires Conforms(e) && e.Declaration?
    ensures SingleTriple(TheTriple(e)) && e.AsTriples() == {TheTriple(e)}
  {
    hide Conforms, EntityType, AxiomProperty, TYPE, Owl;
    DeclaredKind(e);
    EntityApart(e.kind.entity);
  }

  lemma EntityApart(c: EntityClass)
    ensures EntityType(c) != RESTRICTION && EntityType(c) != Owl(AllDisjointClasses)
    ensures EntityType(c) != Owl(AllDisjointProperties)
  {
    hide Owl, Rdfs, TYPE, FIRST, REST, NIL, MeaningOf;
    Meanings();
  }

  lemma AxiomSingle(e: Element)
    requires Conforms(e) && e.BinaryAxiom? && !IsAssertion(e.kind)
    ensures SingleTriple(TheTriple(e)) && e.AsTriples() == {TheTriple(e)}
  {
    hide Conforms, AxiomProperty, TYPE, Owl, BinaryTemplate;
    AxiomKind(e);
    AxiomTemplate(e.kind.binary);
  }

  lemma AxiomTemplate(c: BinaryClass)
    requires !IsAssertion(Binary(c))
    ensures BinaryTemplate(c).OneTriple? && BinaryTemplate(c).only.Some? && AxiomProperty(BinaryTemplate(c).only.value)
  {
    hide Owl, Rdfs, TYPE;
  }

  lemma SingleElementNames(graph: set<Triple>, all: seq<Element>, e: Element, n: Node)
    requires Proper(graph, all, e) && (e.Declaration? || e.BinaryAxiom?)
    ensures NamesWhatItPrints(graph, e, n)
  {
    if e.Declaration? {
      DeclaredSingle(e);
      DeclarationNames(graph, all, e, n);
      TypePositions(graph, TheTriple(e));
    } else {
      AxiomSingle(e);
      AxiomNames(graph, all, e, n);
    }
    hide NamesClass, ClassOperand, NamesObjectProperty, ObjectPropertyOperand, NamesDataProperty, DataPropertyOperand;
    SingleNames(graph, TheTriple(e), n);
    hide Proper, ClassExpressions, ObjectProperties, DataProperties, ClassNamed, ObjectNamed, DataNamed, ClassSubject;
    hide ClassObject, ObjectSubject, ObjectObject, DataSubject, DataObject, SingleTriple, TYPE, Owl;
    hide Element.AsTriples;
  }

  // The theorem: an element names as classes and as properties what stands in
  // such a place of its triples, and nothing else.
  lemma ElementNames(graph: set<Triple>, all: seq<Element>, e: Element, n: Node)
    requires Proper(graph, all, e) && !e.Faceted?
    ensures NamesWhatItPrints(graph, e, n)
  {
    hide NamesWhatItPrints, Conforms, Chosen, FillerList, IsAssertion;
    ShapeOfKind(e);
    match e.kind {
      case Entity(_) => SingleElementNames(graph, all, e, n);
      case Binary(_) => SingleElementNames(graph, all, e, n);
      case Frame(c) => FrameNames(graph, all, e, c, n);
      case Listing(c) =>
        if FillerList(c) {
          FillerListNames(graph, e, c, n);
        } else {
          ListingNames(graph, all, e, c, n);
        }
      case DatatypeRestriction =>
    }
  }

  lemma ShapeOfKind(e: Element)
    requires Conforms(e)
    ensures (e.kind.Entity? ==> e.Declaration?) && (e.kind.Binary? ==> e.BinaryAxiom?)
    ensures e.kind == DatatypeRestriction <==> e.Faceted?
  {
    hide EntityType, BinaryTemplate, FrameTemplate, ListTemplate, FillsSlots, Operate;
    if e.kind.Binary? {
      BinaryOne(e.kind.binary);
    } else if e.kind.Frame? {
      FrameSlots(e.kind.frame);
    } else if e.kind.Listing? {
      ListMinimum(e.kind.listing);
    }
  }

  lemma BinaryOne(c: BinaryClass)
    ensures BinaryTemplate(c).OneTriple?
  {
    hide Owl, Rdfs, TYPE;
  }

  lemma FrameSlots(c: FrameClass)
    ensures FrameTemplate(c).Slots?
  {
    hide Owl, CLASS, DATATYPE, RESTRICTION, NEGATIVE_ASSERTION, ON_PROPERTY, ON_CLASS, ON_DATA_RANGE;
    hide SOURCE_INDIVIDUAL, ASSERTION_PROPERTY, TARGET_INDIVIDUAL, TARGET_VALUE;
  }

  // A restriction of a datatype names nothing.
  lemma FacetsNameNothing(e: Element, n: Node)
    requires Conforms(e) && e.Faceted?
    ensures n !in ClassExpressions(e) && n !in ObjectProperties(e) && n !in DataProperties(e)
  {
    ShapeOfKind(e);
  }
}
