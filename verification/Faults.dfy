// Where a pass leaves alone what it comes across, and where it finds a fault.
// What it makes of the rest is told with the shapes of the elements.
module Faults {
  import opened Rdf
  import opened RdfLists
  import opened Kinds
  import opened Elements
  import opened Passes
  import opened Shapes
  import opened Gates

  // The subject is not of the type, has been claimed as a restriction, or is a
  // restriction of no property.
  ghost predicate LeftAlone(graph: set<Triple>, consumed: set<Triple>, s: Node, rule: SubjectRule) {
    match rule
    case OwnsList(declared, _, _, _) => declared.Some? && Triple(s, TYPE, declared.value) !in graph
    case HasOperand(rdfType, _) => Triple(s, TYPE, rdfType) !in graph
    case HasFacets => Triple(s, TYPE, Rdfs(Datatype)) !in graph
    case Restricts(form) =>
      || Triple(s, TYPE, Owl(Restriction)) !in graph
      || (form.Unqualified? && Triple(s, TYPE, Owl(Restriction)) in consumed)
      || (form.Filler? &&
            forall o :: Triple(s, Owl(OnProperty), o) !in graph && Triple(s, Owl(OnProperties), o) !in graph)
  }

  lemma AnyIs(graph: set<Triple>, s: Node, p: Node)
    ensures HasAny(graph, s, p) <==> exists o :: Triple(s, p, o) in graph
  {
    if o :| Triple(s, p, o) in graph {
      assert o in Objects(graph, s, p);
    }
    if o :| o in Objects(graph, s, p) {
      assert Triple(s, p, o) in graph;
    }
  }

  lemma SubjectLeftAlone(graph: set<Triple>, consumed: set<Triple>, s: Node, p: Node, rule: SubjectRule)
    ensures SubjectStep(graph, consumed, s, p, rule) == Ok(None) <==> LeftAlone(graph, consumed, s, rule)
  {
    hide TYPE, Owl, Rdfs, Value, ListAt, ParseFacets, CellTriples, RestrictsStep;
    match rule {
      case OwnsList(_, _, _, _) =>
      case HasOperand(_, _) =>
      case HasFacets =>
      case Restricts(form) => RestrictionLeftAlone(graph, consumed, s, p, form);
    }
  }

  lemma RestrictionLeftAlone(graph: set<Triple>, consumed: set<Triple>, s: Node, p: Node, form: Form)
    ensures RestrictsStep(graph, consumed, s, p, form) == Ok(None) <==> LeftAlone(graph, consumed, s, Restricts(form))
  {
    hide TYPE, Owl, Value, ListAt, CellTriples, HasAny, PropertyFamily, RestrictionKind, IsNonNegativeInteger;
    hide QualifiedStep;
    AnyIs(graph, s, ON_PROPERTY);
    AnyIs(graph, s, ON_PROPERTIES);
    match form {
      case Filler(_, _, _) =>
      case Qualified(_, _) => QualifiedMakes(graph, s, p, form);
      case _ =>
    }
  }

  lemma QualifiedMakes(graph: set<Triple>, s: Node, p: Node, form: Form)
    requires form.Qualified?
    ensures QualifiedStep(graph, s, p, form) != Ok(None)
  {
    hide Owl, Value, HasAny, IsNonNegativeInteger;
  }

  // Statements

  // A claim on the triple, or a subject that another pass is for.
  ghost predicate PassedOver(consumed: set<Triple>, t: Triple, rule: StatementRule) {
    match rule
    case Declares(_, _) => t in consumed
    case States(_, subjects, rechecks) =>
      (rechecks && t in consumed) || (subjects == IriSubject && !t.s.IRI?) || (subjects == OtherSubject && t.s.IRI?)
    case OwnsMembers(_, _, _) => t in consumed
    case _ => false
  }

  lemma StatementPassedOver(graph: set<Triple>, consumed: set<Triple>, known: set<Node>, t: Triple, rule: StatementRule)
    requires rule.Declares? || rule.States? || rule.OwnsMembers?
    ensures StatementStep(graph, consumed, known, t, rule) == Ok(None) <==> PassedOver(consumed, t, rule)
  {
    hide TYPE, DATATYPE, CLASS, DATATYPE_PROPERTY, MembersProperty, ListAt, AllDataProperties, CellTriples, MEMBERS;
  }

  // A property that is typed as both kinds is a fault where the kind matters.
  lemma FamilyIff(graph: set<Triple>, p: Node)
    ensures PropertyFamily(graph, p) ==
      if IsData(graph, p) && IsObject(graph, p) then Err(Malformed) else Ok(IsObject(graph, p))
  {
    hide Owl, TYPE;
  }

  // The kind of a restriction with one value.
  lemma KindIff(graph: set<Triple>, property: Node, v: Node, form: Form, kind: Kind)
    requires form.SelfForm? || form.ValueForm? || form.Unqualified?
    ensures RestrictionKind(graph, property, v, form) == Ok(kind) <==>
      match form
      case SelfForm => v == TRUE_BOOLEAN && kind == Frame(ObjectHasSelf)
      case ValueForm => kind == Frame(if v.Literal? then DataHasValue else ObjectHasValue)
      case _ =>
        && IsNonNegativeInteger(v) && !(IsData(graph, property) && IsObject(graph, property))
        && kind == if IsObject(graph, property) then form.kind else form.dataKind
  {
    FamilyIff(graph, property);
    hide PropertyFamily, IsNonNegativeInteger, TRUE_BOOLEAN, IsData, IsObject;
  }

  // Under which property the list of a difference stands: both are a fault.
  lemma MembersUnder(graph: set<Triple>, s: Node, legacy: bool)
    ensures var newer, older := (exists o :: Triple(s, Owl(Members), o) in graph),
        (exists o :: Triple(s, Owl(DistinctMembers), o) in graph);
      MembersProperty(graph, s, legacy) ==
        if legacy && newer && older then Err(Malformed)
        else if legacy && !newer then Ok(Owl(DistinctMembers)) else Ok(Owl(Members))
  {
    hide HasAny, Owl;
    AnyIs(graph, s, MEMBERS);
    AnyIs(graph, s, DISTINCT_MEMBERS);
  }

  // Negative assertions

  // The node has one source, one property and one target, of the right sorts.
  ghost predicate Denies(graph: set<Triple>, s: Node, data: bool, source: Node, property: Node, target: Node) {
    && Objects(graph, s, Owl(SourceIndividual)) == {source} && IsResource(source)
    && Objects(graph, s, Owl(AssertionProperty)) == {property}
    && Objects(graph, s, Owl(if data then TargetValue else TargetIndividual)) == {target} && target.Literal? == data
  }

  // The node has targets of the sort.
  ghost predicate Targets(graph: set<Triple>, s: Node, q: Node) {
    exists o :: Triple(s, q, o) in graph
  }

  // A negative assertion is made of an unclaimed node with targets of one sort
  // only and a property that is known.
  lemma NegationIff(graph: set<Triple>, consumed: set<Triple>, known: set<Node>, t: Triple, data: bool, source: Node,
      property: Node, target: Node)
    requires t.p == TYPE
    ensures var q, other := if data then TARGET_VALUE else TARGET_INDIVIDUAL,
        if data then TARGET_INDIVIDUAL else TARGET_VALUE;
      var kind := Frame(if data then NegativeDataPropertyAssertion else NegativeObjectPropertyAssertion);
      Makes(AssertsNegationStep(graph, consumed, known, t, data),
          Negated(kind, t.s, t.o, q, source, property, target)) <==>
      && t !in consumed && !Targets(graph, t.s, other) && Denies(graph, t.s, data, source, property, target)
      && property in known && (if data then property.IRI? else IsResource(property))
  {
    hide TYPE, Owl, Value, HasAny, Denies, Targets;
    NegationShape(graph, t.s, data, source, property, target);
    TargetsAre(graph, t.s);
    var q := if data then TARGET_VALUE else TARGET_INDIVIDUAL;
    var a, b, c := Value(graph, t.s, SOURCE_INDIVIDUAL), Value(graph, t.s, ASSERTION_PROPERTY), Value(graph, t.s, q);
    if c == Some(target) {
      ValueIsThere(graph, t.s, q, target);
    }
    if a.Some? && b.Some? && c.Some? {
      TripleOfFields(Field(SOURCE_INDIVIDUAL, a.value), Field(ASSERTION_PROPERTY, b.value), Field(q, c.value),
        Field(SOURCE_INDIVIDUAL, source), Field(ASSERTION_PROPERTY, property), Field(q, target));
    }
  }

  lemma ValueIsThere(graph: set<Triple>, s: Node, p: Node, o: Node)
    requires Value(graph, s, p) == Some(o)
    ensures HasAny(graph, s, p)
  {
  }

  lemma TargetsAre(graph: set<Triple>, s: Node)
    ensures HasAny(graph, s, TARGET_INDIVIDUAL) <==> Targets(graph, s, TARGET_INDIVIDUAL)
    ensures HasAny(graph, s, TARGET_VALUE) <==> Targets(graph, s, TARGET_VALUE)
  {
    hide HasAny, Owl;
    AnyIs(graph, s, TARGET_INDIVIDUAL);
    AnyIs(graph, s, TARGET_VALUE);
  }

  // It is passed over where it has no target of the sort, and where nothing is
  // wrong with it but the property is not known.
  lemma NegationPassedOver(graph: set<Triple>, consumed: set<Triple>, known: set<Node>, t: Triple, data: bool)
    ensures var q, other := if data then TARGET_VALUE else TARGET_INDIVIDUAL,
        if data then TARGET_INDIVIDUAL else TARGET_VALUE;
      AssertsNegationStep(graph, consumed, known, t, data) == Ok(None) <==>
      || t in consumed
      || !Targets(graph, t.s, q)
      || (!Targets(graph, t.s, other) && exists source, property, target ::
            Denies(graph, t.s, data, source, property, target) &&
            (property !in known || (if data then !property.IRI? else !IsResource(property))))
  {
    hide TYPE, Owl, Value, HasAny, Denies, Targets;
    TargetsAre(graph, t.s);
    var q := if data then TARGET_VALUE else TARGET_INDIVIDUAL;
    var a, b, c := Value(graph, t.s, SOURCE_INDIVIDUAL), Value(graph, t.s, ASSERTION_PROPERTY), Value(graph, t.s, q);
    forall source, property, target
      ensures Denies(graph, t.s, data, source, property, target) <==>
        a == Some(source) && b == Some(property) && c == Some(target) && IsResource(source) && target.Literal? == data
    {
      NegationShape(graph, t.s, data, source, property, target);
    }
  }

  function Negated(kind: Kind, s: Node, rdfType: Node, q: Node, source: Node, property: Node, target: Node): Element {
    Described(kind, s, rdfType, [Field(SOURCE_INDIVIDUAL, source), Field(ASSERTION_PROPERTY, property),
        Field(q, target)])
  }

  lemma NegationShape(graph: set<Triple>, s: Node, data: bool, source: Node, property: Node, target: Node)
    ensures var q := if data then TARGET_VALUE else TARGET_INDIVIDUAL;
      Denies(graph, s, data, source, property, target) <==>
      && Value(graph, s, SOURCE_INDIVIDUAL) == Some(source) && Value(graph, s, ASSERTION_PROPERTY) == Some(property)
      && Value(graph, s, q) == Some(target) && IsResource(source) && target.Literal? == data
  {
    hide Owl, Value, Objects;
    ValueIs(graph, s, SOURCE_INDIVIDUAL, source);
    ValueIs(graph, s, ASSERTION_PROPERTY, property);
    ValueIs(graph, s, TARGET_VALUE, target);
    ValueIs(graph, s, TARGET_INDIVIDUAL, target);
  }
}
