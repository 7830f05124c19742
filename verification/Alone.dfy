// An element that stands alone in a graph: which elements are lifted from what
// they print.
module Alone {
  import opened Rdf
  import opened RdfLists
  import opened Ordering
  import opened Kinds
  import opened Elements
  import opened Passes
  import opened Claims
  import opened Lifting
  import opened Conservation
  import opened Conformance
  import opened Choices
  import opened Shapes

  // The properties the passes look for

  // Where in the table the pass stands that looks for subjects of the property.
  // Two words have one pass for data ranges and one for classes.
  function Place(word: Word, data: bool): int {
    match word
    case IntersectionOf => if data then 0 else 1
    case UnionOf => if data then 2 else 3
    case ComplementOf => if data then 4 else 5
    case OneOf => if data then 6 else 7
    case WithRestrictions => 8
    case HasSelf => 9
    case HasValue => 10
    case MinQualifiedCardinality => 11
    case MaxQualifiedCardinality => 12
    case QualifiedCardinality => 13
    case MinCardinality => 14
    case MaxCardinality => 15
    case Cardinality => 16
    case SomeValuesFrom => 17
    case AllValuesFrom => 18
    case DisjointUnionOf => 21
    case PropertyChainAxiom => 28
    case HasKey => 34
    case _ => -1
  }

  predicate StatementTerm(term: Term) {
    match term
    case OwlTerm(word) => word in {InverseOf, DisjointWith, PropertyDisjointWith, EquivalentClass, EquivalentProperty, DifferentFrom, SameAs}
    case RdfsTerm(word) => word in {Word.SubClassOf, SubPropertyOf, Domain, Range}
    case _ => false
  }

  // Some pass works through the triples or the subjects of the property.
  predicate Scanned(p: Node) {
    (MeaningOf(p).OwlTerm? && Place(MeaningOf(p).word, true) >= 0) || StatementTerm(MeaningOf(p))
  }

  // The type that a subject has to have, if any.
  function Required(rule: SubjectRule): Option<Node> {
    match rule
    case OwnsList(declared, _, _, _) => declared
    case HasOperand(rdfType, _) => Some(rdfType)
    case HasFacets => Some(DATATYPE)
    case Restricts(_) => Some(RESTRICTION)
  }

  // What the place of a pass says about it.
  ghost predicate Placed(pass: Pass, i: int) {
    match pass
    case BySubject(p, rule) =>
      && MeaningOf(p).OwlTerm? && p == Owl(MeaningOf(p).word)
      && Place(MeaningOf(p).word, Required(rule) == Some(DATATYPE)) == i
      && (Required(rule) == None <==> i in {21, 28, 34})
    case ByStatement(WithProperty(p), claim) => claim.States? && StatementTerm(MeaningOf(p)) && i >= 19
    case ByStatement(WithType(rdfType), claim) =>
      && (claim.Declares? || claim.OwnsMembers? || claim.AssertsNegation?) && i >= 22
      && (i < 37 ==> i in {22, 23, 24} && claim.OwnsMembers? && MeaningOf(rdfType) == GroupTerm(i))
    case ByStatement(AnyType, claim) => claim.AssertsClass? && i >= 37
    case ByStatement(Unclaimed, claim) => claim.AssertsProperty? && i >= 37
  }

  function GroupTerm(i: int): Term {
    if i == 22 then OwlTerm(AllDisjointClasses) else if i == 23 then OwlTerm(AllDisjointProperties) else OwlTerm(AllDifferent)
  }

  lemma ExpressionsPlaced1()
    ensures forall i :: 0 <= i < 4 ==> Placed(ExpressionPasses()[i], i)
  {
    hide Owl, Rdfs, TYPE, MeaningOf;
    Meanings();
  }

  lemma ExpressionsPlaced2()
    ensures forall i :: 4 <= i < 9 ==> Placed(ExpressionPasses()[i], i)
  {
    hide Owl, Rdfs, TYPE, MeaningOf;
    Meanings();
  }

  lemma RestrictionsPlaced1()
    ensures |RestrictionPasses()| == 10 && forall i :: 0 <= i < 4 ==> Placed(RestrictionPasses()[i], 9 + i)
  {
    hide Owl, Rdfs, TYPE, MeaningOf;
    Meanings();
  }

  lemma RestrictionsPlaced2()
    ensures |RestrictionPasses()| == 10 && forall i :: 4 <= i < 7 ==> Placed(RestrictionPasses()[i], 9 + i)
  {
    hide Owl, Rdfs, TYPE, MeaningOf;
    Meanings();
  }

  lemma RestrictionsPlaced3()
    ensures |RestrictionPasses()| == 10 && forall i :: 7 <= i < 10 ==> Placed(RestrictionPasses()[i], 9 + i)
  {
    hide Owl, Rdfs, TYPE, MeaningOf;
    Meanings();
  }

  lemma ListAxiomsPlaced()
    ensures |ListAxiomPasses()| == 5 && forall i :: 0 <= i < 5 ==> Placed(ListAxiomPasses()[i], 19 + i)
    ensures Placed(Differences(), 24)
  {
    hide Owl, Rdfs, TYPE, MeaningOf;
    Meanings();
  }

  lemma AxiomsPlaced()
    ensures |AxiomPasses()| == 12 && forall i :: 0 <= i < 12 ==> Placed(AxiomPasses()[i], 25 + i)
  {
    hide Owl, Rdfs, TYPE, MeaningOf;
    Meanings();
  }

  lemma OthersPlaced()
    ensures |CharacteristicPasses()| == 7 && forall i :: 0 <= i < 7 ==> Placed(CharacteristicPasses()[i], 37 + i)
    ensures |DeclarationPasses()| == 6 && forall i :: 0 <= i < 6 ==> Placed(DeclarationPasses()[i], 44 + i)
    ensures |AssertionPasses()| == 5 && forall i :: 0 <= i < 5 ==> Placed(AssertionPasses()[i], 50 + i)
  {
    hide Owl, Rdfs, TYPE, MeaningOf;
  }

  // The groups of passes one after the other.
  lemma Groups(i: int)
    requires |RestrictionPasses()| == 10 && |ListAxiomPasses()| == 5 && |AxiomPasses()| == 12 && |CharacteristicPasses()| == 7
    requires |ExpressionPasses()| == 9 && |DeclarationPasses()| == 6 && |AssertionPasses()| == 5
    ensures |AllPasses()| == 55
    ensures 0 <= i < 9 ==> AllPasses()[i] == ExpressionPasses()[i]
    ensures 9 <= i < 19 ==> AllPasses()[i] == RestrictionPasses()[i - 9]
    ensures 19 <= i < 24 ==> AllPasses()[i] == ListAxiomPasses()[i - 19]
    ensures i == 24 ==> AllPasses()[i] == Differences()
    ensures 25 <= i < 37 ==> AllPasses()[i] == AxiomPasses()[i - 25]
    ensures 37 <= i < 44 ==> AllPasses()[i] == CharacteristicPasses()[i - 37]
    ensures 44 <= i < 50 ==> AllPasses()[i] == DeclarationPasses()[i - 44]
    ensures 50 <= i < 55 ==> AllPasses()[i] == AssertionPasses()[i - 50]
  {
    hide ExpressionPasses, RestrictionPasses, ListAxiomPasses, Differences, AxiomPasses, CharacteristicPasses;
    hide DeclarationPasses, AssertionPasses;
  }

  lemma GroupSizes()
    ensures |RestrictionPasses()| == 10 && |ListAxiomPasses()| == 5 && |AxiomPasses()| == 12 && |CharacteristicPasses()| == 7
    ensures |ExpressionPasses()| == 9 && |DeclarationPasses()| == 6 && |AssertionPasses()| == 5
  {
    hide Owl, Rdfs, TYPE;
  }

  lemma TablePlaced(i: int)
    requires 0 <= i < 55
    ensures |AllPasses()| == 55 && Placed(AllPasses()[i], i)
  {
    GroupSizes();
    Groups(i);
    hide ExpressionPasses, RestrictionPasses, ListAxiomPasses, Differences, AxiomPasses, CharacteristicPasses;
    hide DeclarationPasses, AssertionPasses, AllPasses, Placed;
    ExpressionsPlaced1();
    ExpressionsPlaced2();
    RestrictionsPlaced1();
    RestrictionsPlaced2();
    RestrictionsPlaced3();
    ListAxiomsPlaced();
    AxiomsPlaced();
    OthersPlaced();
  }

  lemma PlacesOfWord(word: Word, a: bool, b: bool)
    requires Place(word, a) != Place(word, b)
    ensures a != b && 0 <= Place(word, a) < 8 && 0 <= Place(word, b) < 8
  {
  }

  // Two passes for subjects of one property want different types.
  lemma SamePropertyApart(a: Pass, i: int, b: Pass, j: int)
    requires Placed(a, i) && Placed(b, j) && i != j && a.BySubject? && b.BySubject? && a.property == b.property
    ensures Required(a.rule).Some? && Required(b.rule).Some? && Required(a.rule) != Required(b.rule)
  {
    hide MeaningOf, DATATYPE, RESTRICTION, Owl, Required, Place;
    PlacesOfWord(MeaningOf(a.property).word, Required(a.rule) == Some(DATATYPE), Required(b.rule) == Some(DATATYPE));
  }

  // A graph in which only the subject has the property, and no other property
  // is one that passes look for.

  ghost predicate Confined(graph: set<Triple>, s: Node, p: Node) {
    forall t :: t in graph && Scanned(t.p) ==> t.p == p && t.s == s
  }

  // The types of a node, or of all nodes, are within this one.
  ghost predicate TypedBy(graph: set<Triple>, s: Node, rdfType: Option<Node>) {
    forall t :: t in graph && t.p == TYPE && t.s == s ==> rdfType == Some(t.o)
  }

  ghost predicate OnlyTyped(graph: set<Triple>, rdfType: Option<Node>) {
    forall t :: t in graph && t.p == TYPE ==> rdfType == Some(t.o)
  }

  // The pass claims nothing of what it comes across.
  ghost predicate Silent(graph: set<Triple>, consumed: set<Triple>, known: set<Node>, pass: Pass) {
    forall item :: Fits(graph, consumed, pass, item) ==> Step(graph, consumed, known, pass, item) == Ok(None)
  }

  lemma {:induction false} SilentItems(graph: set<Triple>, known: set<Node>, pass: Pass, claims: seq<Proposal>, items: seq<Item>)
    requires forall i :: 0 <= i < |items| ==> Step(graph, Claimed(claims), known, pass, items[i]) == Ok(None)
    ensures ApplyItems(graph, known, pass, claims, items) == Ok(claims)
    decreases |items|
  {
    hide Step, Claimed;
    if items != [] {
      assert forall i :: 0 <= i < |items[1..]| ==> items[1..][i] == items[i + 1];
      SilentItems(graph, known, pass, claims, items[1..]);
    }
  }

  lemma SilentPass(graph: set<Triple>, claims: seq<Proposal>, pass: Pass)
    requires Silent(graph, Claimed(claims), Known(pass, ElementsOf(claims)), pass)
    ensures ApplyPass(graph, claims, pass) == Ok(claims)
  {
    var c := Claimed(claims);
    ItemsFit(graph, c, pass);
    hide Step, Claimed, Fits, Items, Known;
    SilentItems(graph, Known(pass, ElementsOf(claims)), pass, claims, Items(graph, c, pass));
  }

  // Without the required type a subject rule claims nothing.
  lemma UntypedSubject(graph: set<Triple>, consumed: set<Triple>, s: Node, p: Node, rule: SubjectRule)
    requires Required(rule).Some? && !Has(graph, s, TYPE, Required(rule).value)
    ensures SubjectStep(graph, consumed, s, p, rule) == Ok(None)
  {
    hide Has, TYPE, DATATYPE, RESTRICTION, ListAt, Value, ParseFacets, FillerStep, QualifiedStep;
  }

  lemma PlacedScanned(pass: Pass, i: int)
    requires Placed(pass, i) && i >= 0
    ensures pass.BySubject? ==> Scanned(pass.property)
    ensures pass.ByStatement? && pass.source.WithProperty? ==> Scanned(pass.source.property) && StatementTerm(MeaningOf(pass.source.property))
  {
    hide MeaningOf, Owl, Required;
  }

  // Subject passes other than the element's own are silent.
  lemma OtherSubjects(graph: set<Triple>, consumed: set<Triple>, known: set<Node>, s: Node, own: Pass, k: int, pass: Pass, j: int)
    requires Placed(own, k) && Placed(pass, j) && j != k && j >= 0 && own.BySubject? && pass.BySubject?
    requires Confined(graph, s, own.property) && TypedBy(graph, s, Required(own.rule))
    ensures Silent(graph, consumed, known, pass)
  {
    var p, q := own.property, pass.property;
    PlacedScanned(pass, j);
    if p == q {
      SamePropertyApart(own, k, pass, j);
    }
    hide Placed, Scanned, TYPE, SubjectStep, Required;
    forall item | Fits(graph, consumed, pass, item) ensures Step(graph, consumed, known, pass, item) == Ok(None) {
      assert p == q && item.node == s;
      UntypedSubject(graph, consumed, s, q, pass.rule);
    }
  }

  // Statement passes before the element's own find nothing.
  lemma EarlierStatements(graph: set<Triple>, known: set<Node>, s: Node, p: Node, rdfType: Option<Node>, pass: Pass, j: int)
    requires Placed(pass, j) && 0 <= j < 37 && pass.ByStatement?
    requires Confined(graph, s, p) && !StatementTerm(MeaningOf(p))
    requires j >= 22 ==> OnlyTyped(graph, rdfType) && (rdfType.Some? ==> MeaningOf(rdfType.value) != GroupTerm(j))
    ensures Silent(graph, {}, known, pass)
  {
    PlacedScanned(pass, j);
    hide MeaningOf, TYPE, GroupTerm, StatementTerm, Scanned, Step;
    assert pass.source.WithProperty? || pass.source.WithType?;
    assert pass.source.WithProperty? ==> pass.source.property != p;
    assert pass.source.WithType? ==> rdfType != Some(pass.source.rdfType);
    assert Candidates(graph, {}, pass.source) == {};
    assert forall item :: !Fits(graph, {}, pass, item);
  }

  // Statement passes after it find nothing that is not claimed.
  lemma LaterStatements(graph: set<Triple>, known: set<Node>, s: Node, p: Node, pass: Pass, j: int)
    requires Placed(pass, j) && j >= 0 && pass.ByStatement?
    requires Confined(graph, s, p) && !StatementTerm(MeaningOf(p))
    ensures Silent(graph, graph, known, pass)
  {
    PlacedScanned(pass, j);
    hide MeaningOf, TYPE, GroupTerm, StatementTerm, Scanned, ListAt, Value, HasAny, Has;
    assert pass.source.WithProperty? ==> pass.source.property != p;
    assert pass.source.WithProperty? ==> Candidates(graph, graph, pass.source) == {};
    assert pass.claim.AssertsProperty? ==> Candidates(graph, graph, pass.source) == {};
  }

  // The run

  lemma {:induction false} StillPasses(graph: set<Triple>, claims: seq<Proposal>, passes: seq<Pass>)
    requires forall i :: 0 <= i < |passes| ==> ApplyPass(graph, claims, passes[i]) == Ok(claims)
    ensures ApplyPasses(graph, claims, passes) == Ok(claims)
    decreases |passes|
  {
    hide ApplyPass;
    if passes != [] {
      assert forall i :: 0 <= i < |passes[1..]| ==> passes[1..][i] == passes[i + 1];
      StillPasses(graph, claims, passes[1..]);
    }
  }

  lemma RunAlone(graph: set<Triple>, k: int, claim: Proposal)
    requires |AllPasses()| == 55 && 0 <= k < 55
    requires forall j :: 0 <= j < k ==> ApplyPass(graph, [], AllPasses()[j]) == Ok([])
    requires ApplyPass(graph, [], AllPasses()[k]) == Ok([claim])
    requires forall j :: k < j < 55 ==> ApplyPass(graph, [claim], AllPasses()[j]) == Ok([claim])
    requires WellFormed(graph) && claim.triples == graph
    ensures Lift(graph) == Ok([claim.element])
  {
    hide AllPasses, ApplyPass, WellFormed, Lift;
    var passes := AllPasses();
    var rest := passes[k..];
    StillPasses(graph, [], passes[..k]);
    StillPasses(graph, [claim], rest[1..]);
    assert passes == passes[..k] + rest;
    PassesConcat(graph, [], passes[..k], rest);
    assert ApplyPasses(graph, [], passes) == Ok([claim]);
    LiftIff(graph, [claim]);
    OneClaim(claim);
  }

  lemma OneClaim(claim: Proposal)
    ensures Claimed([claim]) == claim.triples && ElementsOf([claim]) == [claim.element]
    ensures StableSort([claim.element], SortKey) == [claim.element]
  {
    var q := [claim.element];
    assert q[..0] == [] && [claim][0] == claim;
    assert StableSort(q[..0], SortKey) == [];
    assert StableSort(q, SortKey) == Insert(claim.element, [], SortKey);
  }

  lemma OwnItem(graph: set<Triple>, pass: Pass, item: Item, claim: Proposal)
    requires Items(graph, {}, pass) == [item] && Step(graph, {}, Known(pass, []), pass, item) == Ok(Some(claim))
    ensures ApplyPass(graph, [], pass) == Ok([claim])
  {
    hide Step, Items, Known;
    assert Claimed([]) == {} && ElementsOf([]) == [];
    assert [item][1..] == [] && [] + [claim] == [claim];
    assert claim.triples !! {};
    assert ApplyItem(graph, Known(pass, []), pass, [], item) == Ok([claim]);
    assert ApplyItems(graph, Known(pass, []), pass, [claim], []) == Ok([claim]);
  }

  lemma SubjectItem(graph: set<Triple>, s: Node, p: Node, rule: SubjectRule)
    requires SubjectsOf(graph, p) == {s}
    ensures Items(graph, {}, BySubject(p, rule)) == [Named(s)]
  {
    NodesOrdered();
    hide NodeLe, SubjectsOf;
    SortingIsUnique(Sorted({s}, NodeLe), [s], {s}, NodeLe);
  }

  ghost predicate Standing(graph: set<Triple>, s: Node, p: Node, rdfType: Option<Node>) {
    && WellFormed(graph) && SubjectsOf(graph, p) == {s} && Confined(graph, s, p) && TypedBy(graph, s, rdfType)
    && (rdfType == None ==> OnlyTyped(graph, None))
  }

  ghost predicate OwnPass(own: Pass, k: int) {
    |AllPasses()| == 55 && 0 <= k < 37 && AllPasses()[k] == own
  }

  // An element that a subject pass makes of the graph it prints.
  lemma SubjectAlone(e: Element, k: int, own: Pass, s: Node)
    requires own.BySubject? && OwnPass(own, k) && Standing(e.AsTriples(), s, own.property, Required(own.rule))
    requires Makes(SubjectStep(e.AsTriples(), {}, s, own.property, own.rule), e)
    ensures Lift(e.AsTriples()) == Ok([e])
  {
    var graph, claim := e.AsTriples(), Whole(e);
    assert ElementsOf([]) == [] && Claimed([]) == {};
    OneClaim(claim);
    TablePlaced(k);
    SubjectItem(graph, s, own.property, own.rule);
    OwnItem(graph, own, Named(s), claim);
    OwnProperty(own, k);
    forall j | 0 <= j < k ensures ApplyPass(graph, [], AllPasses()[j]) == Ok([]) {
      BeforeSubject(graph, s, own, k, j);
    }
    forall j | k < j < 55 ensures ApplyPass(graph, [claim], AllPasses()[j]) == Ok([claim]) {
      AfterOwn(graph, claim, s, own, k, j);
    }
    hide AllPasses;
    RunAlone(graph, k, claim);
  }

  lemma OwnProperty(own: Pass, k: int)
    requires Placed(own, k) && own.BySubject? && 0 <= k < 37
    ensures !StatementTerm(MeaningOf(own.property)) && (k >= 22 ==> Required(own.rule) == None)
  {
    hide MeaningOf, Owl, Required;
  }

  lemma BeforeSubject(graph: set<Triple>, s: Node, own: Pass, k: int, j: int)
    requires |AllPasses()| == 55 && 0 <= j < k < 37 && Placed(own, k) && own.BySubject?
    requires Standing(graph, s, own.property, Required(own.rule))
    ensures ApplyPass(graph, [], AllPasses()[j]) == Ok([])
  {
    TablePlaced(j);
    OwnProperty(own, k);
    hide Placed, AllPasses, Silent, ApplyPass, MeaningOf, GroupTerm, Required;
    assert ElementsOf([]) == [] && Claimed([]) == {};
    var pass := AllPasses()[j];
    if pass.BySubject? {
      OtherSubjects(graph, {}, Known(pass, []), s, own, k, pass, j);
    } else {
      EarlierStatements(graph, Known(pass, []), s, own.property, Required(own.rule), pass, j);
    }
    SilentPass(graph, [], pass);
  }

  lemma AfterOwn(graph: set<Triple>, claim: Proposal, s: Node, own: Pass, k: int, j: int)
    requires |AllPasses()| == 55 && 0 <= k < j < 55 && k < 37 && Placed(own, k) && own.BySubject?
    requires Standing(graph, s, own.property, Required(own.rule)) && claim.triples == graph
    ensures ApplyPass(graph, [claim], AllPasses()[j]) == Ok([claim])
  {
    TablePlaced(j);
    OwnProperty(own, k);
    OneClaim(claim);
    hide Placed, AllPasses, Silent, ApplyPass, MeaningOf, Required, ElementsOf, Claimed, Known;
    var pass := AllPasses()[j];
    var known := Known(pass, ElementsOf([claim]));
    if pass.BySubject? {
      OtherSubjects(graph, graph, known, s, own, k, pass, j);
    } else {
      LaterStatements(graph, known, s, own.property, pass, j);
    }
    SilentPass(graph, [claim], pass);
  }

  // The graph of one element: its node with some properties, once each, and
  // the triples of a list.

  ghost predicate Around(graph: set<Triple>, s: Node, fields: seq<Field>, rest: set<Triple>) {
    && graph == FieldTriples(s, fields) + rest && IsResource(s)
    && (forall t :: t in rest ==> (t.p == FIRST || t.p == REST) && IsResource(t.s))
    && (forall i, j :: 0 <= i < j < |fields| ==> fields[i].property != fields[j].property)
    && (forall i :: 0 <= i < |fields| ==> fields[i].property.IRI? && fields[i].property != FIRST && fields[i].property != REST)
  }

  lemma Unscanned()
    ensures !Scanned(TYPE) && !Scanned(FIRST) && !Scanned(REST) && !Scanned(MEMBERS) && !Scanned(ON_DATATYPE)
    ensures !Scanned(ON_PROPERTY) && !Scanned(ON_PROPERTIES) && !Scanned(ON_CLASS) && !Scanned(ON_DATA_RANGE)
  {
    OwnMeanings();
    hide MeaningOf, TYPE, FIRST, REST, MEMBERS, ON_DATATYPE, ON_PROPERTY, ON_PROPERTIES, ON_CLASS, ON_DATA_RANGE;
  }

  lemma OwnMeanings()
    ensures MeaningOf(TYPE) == TypeTerm && MeaningOf(FIRST) == FirstTerm && MeaningOf(REST) == RestTerm
    ensures MeaningOf(MEMBERS) == OwlTerm(Members) && MeaningOf(ON_DATATYPE) == OwlTerm(OnDatatype)
    ensures MeaningOf(ON_PROPERTY) == OwlTerm(Word.OnProperty) && MeaningOf(ON_PROPERTIES) == OwlTerm(OnProperties)
    ensures MeaningOf(ON_CLASS) == OwlTerm(OnClass) && MeaningOf(ON_DATA_RANGE) == OwlTerm(OnDataRange)
  {
    hide Owl, MeaningOf, TYPE, FIRST, REST;
    Meanings();
  }

  lemma ScannedIri(p: Node)
    requires Scanned(p)
    ensures p.IRI?
  {
    hide TYPE, FIRST, REST, NIL, Owl, Rdfs;
    assert !p.IRI? ==> MeaningOf(p) == OtherTerm;
    hide MeaningOf;
  }

  lemma FieldObjects(graph: set<Triple>, s: Node, fields: seq<Field>, rest: set<Triple>, i: int)
    requires Around(graph, s, fields, rest) && 0 <= i < |fields|
    ensures Objects(graph, s, fields[i].property) == {fields[i].operand} && SubjectsOf(graph, fields[i].property) == {s}
  {
    hide FIRST, REST;
    var p := fields[i].property;
    assert Triple(s, p, fields[i].operand) in graph;
    forall t | t in graph && t.p == p ensures t == Triple(s, p, fields[i].operand) {
      var j :| 0 <= j < |fields| && t == Triple(s, fields[j].property, fields[j].operand);
      assert j == i;
    }
  }

  lemma FieldAbsent(graph: set<Triple>, s: Node, fields: seq<Field>, rest: set<Triple>, p: Node)
    requires Around(graph, s, fields, rest) && p != FIRST && p != REST
    requires forall i :: 0 <= i < |fields| ==> fields[i].property != p
    ensures forall t :: t in graph ==> t.p != p
    ensures !HasAny(graph, s, p)
  {
    hide FIRST, REST;
  }

  lemma AroundTriple(graph: set<Triple>, s: Node, fields: seq<Field>, rest: set<Triple>, t: Triple)
    requires Around(graph, s, fields, rest) && t in graph
    ensures (t in rest && (t.p == FIRST || t.p == REST) && IsResource(t.s)) ||
      (t.s == s && t.p != FIRST && t.p != REST && t.p.IRI? && exists i :: 0 <= i < |fields| && fields[i] == Field(t.p, t.o))
  {
    hide FIRST, REST;
    if t !in rest {
      var i :| 0 <= i < |fields| && t == Triple(s, fields[i].property, fields[i].operand);
      assert fields[i] == Field(t.p, t.o);
    }
  }

  // One of the properties is one that passes look for, and there is one type.
  ghost predicate OneScanned(fields: seq<Field>, k: int, rdfType: Option<Node>) {
    && 0 <= k < |fields| && Scanned(fields[k].property)
    && (forall i :: 0 <= i < |fields| && i != k ==> !Scanned(fields[i].property))
    && forall i :: 0 <= i < |fields| && fields[i].property == TYPE ==> rdfType == Some(fields[i].operand)
  }

  // Such a graph stands as the run needs it.
  lemma AroundStands(graph: set<Triple>, s: Node, fields: seq<Field>, rest: set<Triple>, k: int, rdfType: Option<Node>)
    requires Around(graph, s, fields, rest) && OneScanned(fields, k, rdfType)
    ensures Standing(graph, s, fields[k].property, rdfType)
  {
    Unscanned();
    FieldObjects(graph, s, fields, rest, k);
    TypeIsNotList();
    assert FIRST.IRI? && REST.IRI?;
    hide Scanned, FIRST, REST, TYPE, SubjectsOf;
    forall t | t in graph
      ensures IsResource(t.s) && IsResource(t.p)
      ensures Scanned(t.p) ==> t.p == fields[k].property && t.s == s
      ensures t.p == TYPE ==> rdfType == Some(t.o)
    {
      AroundTriple(graph, s, fields, rest, t);
    }
    hide Around;
  }

  lemma TypeIsNotList()
    ensures TYPE != FIRST && TYPE != REST
  {
    hide TYPE, FIRST, REST, MeaningOf;
    Meanings();
  }

  // The list is there for itself.
  lemma AroundOwns(graph: set<Triple>, s: Node, fields: seq<Field>, list: Seq)
    requires Around(graph, s, fields, list.AsTriples())
    ensures Owns(graph, {}, list)
  {
    hide FIRST, REST, Seq.AsTriples;
    forall t | t in graph ensures t.p == FIRST || t.p == REST ==> t in list.AsTriples() {
      AroundTriple(graph, s, fields, list.AsTriples(), t);
    }
  }

  lemma ListRest(list: Seq)
    requires list.Valid()
    ensures forall t :: t in list.AsTriples() ==> (t.p == FIRST || t.p == REST) && IsResource(t.s)
  {
    hide FIRST, REST;
  }

  function TypeFields(rdfType: Option<Node>): seq<Field> {
    if rdfType.Some? then [Field(TYPE, rdfType.value)] else []
  }

  lemma FieldsPlus(s: Node, a: seq<Field>, b: seq<Field>)
    ensures FieldTriples(s, a + b) == FieldTriples(s, a) + FieldTriples(s, b)
  {
    forall i | 0 <= i < |a| ensures (a + b)[i] == a[i] {}
    forall i | 0 <= i < |b| ensures (a + b)[|a| + i] == b[i] {}
  }

  lemma TypeFieldTriples(s: Node, rdfType: Option<Node>)
    ensures FieldTriples(s, TypeFields(rdfType)) == TypeTriples(s, rdfType)
  {
    hide TYPE;
    if rdfType.Some? {
      FewFields(s, Field(TYPE, rdfType.value));
    }
  }

  // What the owner of a list prints.
  lemma AroundList(e: Element)
    requires e.ListOwner? && e.list.Valid() && IsResource(e.name)
    requires e.property.IRI? && e.property != TYPE && e.property != FIRST && e.property != REST
    requires forall f :: f in e.values ==>
      f.property.IRI? && f.property != TYPE && f.property != FIRST && f.property != REST && f.property != e.property
    requires |e.values| <= 1
    ensures Around(e.AsTriples(), e.name, TypeFields(e.declared) + [Field(e.property, e.list.Name())] + e.values, e.list.AsTriples())
  {
    var types, own, fields := TypeFields(e.declared), [Field(e.property, e.list.Name())], e.values;
    var all := types + own + fields;
    OwnerTriples(e.kind, e.name, e.declared, e.property, e.list, e.values);
    FieldsPlus(e.name, types, own);
    FieldsPlus(e.name, types + own, fields);
    TypeFieldTriples(e.name, e.declared);
    FewFields(e.name, Field(e.property, e.list.Name()));
    ListRest(e.list);
    TypeIsNotList();
    assert TYPE.IRI?;
    assert e.AsTriples() == FieldTriples(e.name, all) + e.list.AsTriples() by {
      hide Element.AsTriples, Seq.AsTriples, FieldTriples, TypeTriples, TYPE, FIRST, REST;
    }
    hide Element.AsTriples, Seq.AsTriples, FieldTriples, TypeTriples, TYPE, FIRST, REST;
  }

  // Operand lists
  lemma OwnsListAlone(s: Node, k: int, own: Pass, list: Seq)
    requires own.BySubject? && OwnPass(own, k) && own.rule.OwnsList? && IsResource(s)
    requires Operate(list, if own.rule.literals then LiteralNode else Resource, own.rule.minimum)
    ensures var e := ListOwner(own.rule.kind, s, own.rule.declared, own.property, list, []); Lift(e.AsTriples()) == Ok([e])
  {
    hide Lift, OwnPass, Placed, Scanned, TYPE, FIRST, REST;
    var p, rule := own.property, own.rule;
    var e := ListOwner(rule.kind, s, rule.declared, p, list, []);
    OwnPassProperty(own, k);
    AroundList(e);
    OwnerHolds(e);
    OwnsListIff(e.AsTriples(), {}, s, p, rule, list);
    OwnerStands(e);
    hide OwnsListStep, Element.AsTriples, Standing;
    SubjectAlone(e, k, own, s);
  }

  lemma OwnerHolds(e: Element)
    requires e.ListOwner? && e.list.Valid()
    requires Around(e.AsTriples(), e.name, TypeFields(e.declared) + [Field(e.property, e.list.Name())] + e.values, e.list.AsTriples())
    ensures HoldsList(e.AsTriples(), {}, e.name, e.property, e.list)
    ensures e.declared.Some? ==> Has(e.AsTriples(), e.name, TYPE, e.declared.value)
    ensures |e.values| == 1 ==> Objects(e.AsTriples(), e.name, e.values[0].property) == {e.values[0].operand}
  {
    var graph, rest := e.AsTriples(), e.list.AsTriples();
    var types := TypeFields(e.declared);
    var fields := types + [Field(e.property, e.list.Name())] + e.values;
    hide Element.AsTriples, Seq.AsTriples, Around, TYPE;
    assert fields[|types|] == Field(e.property, e.list.Name());
    AroundOwns(graph, e.name, fields, e.list);
    FieldObjects(graph, e.name, fields, rest, |types|);
    if e.declared.Some? {
      assert fields[0] == Field(TYPE, e.declared.value);
      FieldObjects(graph, e.name, fields, rest, 0);
      assert e.declared.value in Objects(graph, e.name, TYPE);
    }
    if |e.values| == 1 {
      assert fields[|types| + 1] == e.values[0];
      FieldObjects(graph, e.name, fields, rest, |types| + 1);
    }
  }

  // It stands alone by the property that passes look for.
  lemma OwnerStands(e: Element)
    requires e.ListOwner? && e.list.Valid() && |e.values| <= 1
    requires Around(e.AsTriples(), e.name, TypeFields(e.declared) + [Field(e.property, e.list.Name())] + e.values, e.list.AsTriples())
    requires e.property != TYPE && forall f :: f in e.values ==> f.property != TYPE
    ensures Scanned(e.property) && (forall f :: f in e.values ==> !Scanned(f.property)) ==>
      Standing(e.AsTriples(), e.name, e.property, e.declared)
    ensures |e.values| == 1 && !Scanned(e.property) && Scanned(e.values[0].property) ==>
      Standing(e.AsTriples(), e.name, e.values[0].property, e.declared)
  {
    Unscanned();
    var graph, rest := e.AsTriples(), e.list.AsTriples();
    var types := TypeFields(e.declared);
    var fields := types + [Field(e.property, e.list.Name())] + e.values;
    hide Element.AsTriples, Seq.AsTriples, Around, TYPE, Scanned, Standing;
    assert fields[|types|] == Field(e.property, e.list.Name());
    assert |e.values| == 1 ==> fields[|types| + 1] == e.values[0];
    assert forall i :: 0 <= i < |types| ==> fields[i] == types[i] && fields[i].property == TYPE && e.declared == Some(fields[i].operand);
    if Scanned(e.property) && forall f :: f in e.values ==> !Scanned(f.property) {
      AroundStands(graph, e.name, fields, rest, |types|, e.declared);
    }
    if |e.values| == 1 && !Scanned(e.property) && Scanned(e.values[0].property) {
      AroundStands(graph, e.name, fields, rest, |types| + 1, e.declared);
    }
  }

  // Nodes described by a type and a few values

  ghost predicate DistinctFields(values: seq<Field>) {
    && (forall i, j :: 0 <= i < j < |values| ==> values[i].property != values[j].property)
    && forall i :: 0 <= i < |values| ==>
      values[i].property.IRI? && values[i].property != TYPE && values[i].property != FIRST && values[i].property != REST
  }

  lemma AroundDescribed(e: Element)
    requires e.Described? && IsResource(e.name) && DistinctFields(e.values)
    ensures Around(e.AsTriples(), e.name, [Field(TYPE, e.rdfType)] + e.values, {})
  {
    var types := [Field(TYPE, e.rdfType)];
    FieldsPlus(e.name, types, e.values);
    FewFields(e.name, Field(TYPE, e.rdfType));
    TypeIsNotList();
    assert TYPE.IRI?;
    hide FieldTriples, TYPE, FIRST, REST;
    assert e.AsTriples() == FieldTriples(e.name, types + e.values) + {};
  }

  lemma DescribedHolds(e: Element, i: int)
    requires e.Described? && Around(e.AsTriples(), e.name, [Field(TYPE, e.rdfType)] + e.values, {}) && 0 <= i < |e.values|
    ensures Objects(e.AsTriples(), e.name, e.values[i].property) == {e.values[i].operand}
    ensures Has(e.AsTriples(), e.name, TYPE, e.rdfType)
  {
    var fields := [Field(TYPE, e.rdfType)] + e.values;
    hide Element.AsTriples, Around, TYPE;
    assert fields[0] == Field(TYPE, e.rdfType) && fields[i + 1] == e.values[i];
    FieldObjects(e.AsTriples(), e.name, fields, {}, 0);
    FieldObjects(e.AsTriples(), e.name, fields, {}, i + 1);
    assert e.rdfType in Objects(e.AsTriples(), e.name, TYPE);
  }

  lemma DescribedLacks(e: Element, q: Node)
    requires e.Described? && Around(e.AsTriples(), e.name, [Field(TYPE, e.rdfType)] + e.values, {})
    requires q != TYPE && q != FIRST && q != REST && forall i :: 0 <= i < |e.values| ==> e.values[i].property != q
    ensures !HasAny(e.AsTriples(), e.name, q)
  {
    var fields := [Field(TYPE, e.rdfType)] + e.values;
    hide Element.AsTriples, Around, TYPE, FIRST, REST, HasAny;
    forall i | 0 <= i < |fields| ensures fields[i].property != q {
      assert i > 0 ==> fields[i] == e.values[i - 1];
    }
    FieldAbsent(e.AsTriples(), e.name, fields, {}, q);
  }

  lemma OneDescribed(rdfType: Node, values: seq<Field>, k: int)
    requires DistinctFields(values) && 0 <= k < |values| && Scanned(values[k].property)
    requires forall i :: 0 <= i < |values| && i != k ==> !Scanned(values[i].property)
    ensures OneScanned([Field(TYPE, rdfType)] + values, k + 1, Some(rdfType))
  {
    hide TYPE, FIRST, REST, Scanned;
    Unscanned();
    var fields := [Field(TYPE, rdfType)] + values;
    forall i | 1 <= i < |fields| ensures fields[i] == values[i - 1] {}
  }

  lemma DescribedStands(e: Element, k: int)
    requires e.Described? && Around(e.AsTriples(), e.name, [Field(TYPE, e.rdfType)] + e.values, {}) && DistinctFields(e.values)
    requires 0 <= k < |e.values| && Scanned(e.values[k].property)
    requires forall i :: 0 <= i < |e.values| && i != k ==> !Scanned(e.values[i].property)
    ensures Standing(e.AsTriples(), e.name, e.values[k].property, Some(e.rdfType))
  {
    hide Element.AsTriples, Around, TYPE, FIRST, REST, Scanned, Standing, OneScanned;
    OneDescribed(e.rdfType, e.values, k);
    assert ([Field(TYPE, e.rdfType)] + e.values)[k + 1] == e.values[k];
    AroundStands(e.AsTriples(), e.name, [Field(TYPE, e.rdfType)] + e.values, {}, k + 1, Some(e.rdfType));
  }

  lemma DescribedTyped(e: Element)
    requires e.Described? && Around(e.AsTriples(), e.name, [Field(TYPE, e.rdfType)] + e.values, {}) && DistinctFields(e.values)
    ensures OnlyTyped(e.AsTriples(), Some(e.rdfType))
  {
    var fields := [Field(TYPE, e.rdfType)] + e.values;
    TypeIsNotList();
    hide Element.AsTriples, TYPE, FIRST, REST;
    assert forall i :: 1 <= i < |fields| ==> fields[i] == e.values[i - 1];
    forall t | t in e.AsTriples() && t.p == TYPE ensures t.o == e.rdfType {
      AroundTriple(e.AsTriples(), e.name, fields, {}, t);
    }
  }

  // Nothing says that the property is an object property.
  lemma NoFamily(graph: set<Triple>, q: Node)
    requires OnlyTyped(graph, Some(RESTRICTION))
    ensures PropertyFamily(graph, q) == Ok(false)
  {
    RestrictionApart();
    hide TYPE, RESTRICTION, DATATYPE_PROPERTY, FUNCTIONAL_PROPERTY, Owl, ObjectHints;
  }

  lemma RestrictionApart()
    ensures RESTRICTION != DATATYPE_PROPERTY && RESTRICTION != FUNCTIONAL_PROPERTY
    ensures forall word :: word in ObjectHints() ==> RESTRICTION != Owl(word)
  {
    hide Owl, MeaningOf;
    Meanings();
  }

  // The property of a pass is none of those that the element's other triples use.
  lemma OwnPassProperty(own: Pass, k: int)
    requires own.BySubject? && OwnPass(own, k)
    ensures Placed(own, k) && Scanned(own.property) && own.property.IRI? && own.property != TYPE && own.property != FIRST && own.property != REST
    ensures own.property !in {ON_PROPERTY, ON_PROPERTIES, ON_CLASS, ON_DATA_RANGE, ON_DATATYPE, MEMBERS}
  {
    TablePlaced(k);
    hide AllPasses;
    PlacedScanned(own, k);
    ScannedIri(own.property);
    Unscanned();
    hide Placed, Scanned, TYPE, FIRST, REST, ON_PROPERTY, ON_PROPERTIES, ON_CLASS, ON_DATA_RANGE, ON_DATATYPE;
    hide MEMBERS;
  }

  lemma OperandAlone(s: Node, k: int, own: Pass, o: Node)
    requires own.BySubject? && OwnPass(own, k) && own.rule.HasOperand? && IsResource(s) && IsResource(o)
    ensures var e := Described(own.rule.kind, s, own.rule.rdfType, [Field(own.property, o)]); Lift(e.AsTriples()) == Ok([e])
  {
    hide Lift, OwnPass;
    var e := Described(own.rule.kind, s, own.rule.rdfType, [Field(own.property, o)]);
    OwnPassProperty(own, k);
    hide Placed, Scanned, TYPE, FIRST, REST;
    AroundDescribed(e);
    DescribedHolds(e, 0);
    DescribedStands(e, 0);
    HasOperandIff(e.AsTriples(), s, own.property, own.rule, o);
    hide Element.AsTriples, Standing, HasOperandStep;
    SubjectAlone(e, k, own, s);
  }

  lemma OnPropertySteady()
    ensures ON_PROPERTY.IRI? && ON_CLASS.IRI? && ON_DATA_RANGE.IRI? && ON_PROPERTIES.IRI?
    ensures ON_PROPERTY != TYPE && ON_CLASS != TYPE && ON_DATA_RANGE != TYPE && ON_PROPERTIES != TYPE
    ensures ON_PROPERTY != FIRST && ON_CLASS != FIRST && ON_DATA_RANGE != FIRST && ON_PROPERTIES != FIRST
    ensures ON_PROPERTY != REST && ON_CLASS != REST && ON_DATA_RANGE != REST && ON_PROPERTIES != REST
    ensures ON_PROPERTY != ON_CLASS && ON_PROPERTY != ON_DATA_RANGE && ON_CLASS != ON_DATA_RANGE && ON_PROPERTY != ON_PROPERTIES
  {
    assert forall word :: Owl(word).IRI?;
    hide Owl, MeaningOf, TYPE, FIRST, REST;
    Meanings();
  }

  lemma RestrictedFields(own: Pass, k: int, property: Node, v: Node, q: Node, u: Node)
    requires own.BySubject? && OwnPass(own, k) && (q == ON_CLASS || q == ON_DATA_RANGE)
    ensures Scanned(own.property) && !Scanned(ON_PROPERTY) && !Scanned(q)
    ensures DistinctFields([Field(ON_PROPERTY, property), Field(own.property, v)])
    ensures DistinctFields([Field(ON_PROPERTY, property), Field(own.property, v), Field(q, u)])
    ensures ON_PROPERTIES !in {TYPE, FIRST, REST, ON_PROPERTY, own.property}
    ensures ON_CLASS !in {TYPE, FIRST, REST, ON_PROPERTY, own.property, ON_DATA_RANGE}
    ensures ON_DATA_RANGE !in {TYPE, FIRST, REST, ON_PROPERTY, own.property}
  {
    hide AllPasses, Placed, Scanned, OwnPass, TYPE, FIRST, REST, ON_PROPERTY, ON_PROPERTIES, ON_CLASS, ON_DATA_RANGE;
    OwnPassProperty(own, k);
    OnPropertySteady();
    Unscanned();
  }

  // A restriction on one property is described by it and one value.
  lemma PairDescribed(e: Element, s: Node, k: int, own: Pass, kind: Kind, property: Node, v: Node)
    requires own.BySubject? && OwnPass(own, k) && IsResource(s) && e == Restricted(kind, s, property, [Field(own.property, v)])
    ensures var graph := e.AsTriples();
      && Has(graph, s, TYPE, RESTRICTION) && Objects(graph, s, ON_PROPERTY) == {property} && Objects(graph, s, own.property) == {v}
      && Standing(graph, s, own.property, Some(RESTRICTION)) && OnlyTyped(graph, Some(RESTRICTION))
      && !HasAny(graph, s, ON_PROPERTIES)
  {
    RestrictedFields(own, k, property, v, ON_CLASS, v);
    hide OwnPass, Scanned, TYPE, FIRST, REST, ON_PROPERTY, ON_PROPERTIES, ON_CLASS, ON_DATA_RANGE, RESTRICTION;
    hide Element.AsTriples, DistinctFields, Objects, HasAny, Has, Standing, OnlyTyped, Around;
    var values := e.values;
    assert values == [Field(ON_PROPERTY, property), Field(own.property, v)];
    assert values[0] == Field(ON_PROPERTY, property) && values[1] == Field(own.property, v);
    AroundDescribed(e);
    DescribedHolds(e, 0);
    DescribedHolds(e, 1);
    DescribedStands(e, 1);
    DescribedTyped(e);
    DescribedLacks(e, ON_PROPERTIES);
  }

  // What the form makes of the value where nothing says more of the property.
  predicate SimpleKind(form: Form, kind: Kind, v: Node) {
    match form
    case SelfForm => kind == Frame(ObjectHasSelf) && v == TRUE_BOOLEAN
    case ValueForm => kind == if v.Literal? then Frame(DataHasValue) else Frame(ObjectHasValue)
    case Unqualified(_, dataKind) => kind == dataKind && IsNonNegativeInteger(v)
    case _ => false
  }

  lemma SimpleAlone(s: Node, k: int, own: Pass, kind: Kind, property: Node, v: Node)
    requires own.BySubject? && OwnPass(own, k) && own.rule.Restricts? && SimpleKind(own.rule.form, kind, v) && IsResource(s) && property.IRI?
    ensures var e := Restricted(kind, s, property, [Field(own.property, v)]); Lift(e.AsTriples()) == Ok([e])
  {
    hide Lift, OwnPass;
    var e, form := Restricted(kind, s, property, [Field(own.property, v)]), own.rule.form;
    PairDescribed(e, s, k, own, kind, property, v);
    NoFamily(e.AsTriples(), property);
    hide Element.AsTriples, Standing, TYPE, RESTRICTION, PropertyFamily, IsNonNegativeInteger, OnlyTyped;
    SimpleIff(e.AsTriples(), {}, s, own.property, form, kind, property, v);
    hide RestrictsStep, Restricted;
    SubjectAlone(e, k, own, s);
  }

  lemma FillerAlone(s: Node, k: int, own: Pass, property: Node, filler: Node)
    requires own.BySubject? && OwnPass(own, k) && own.rule.Restricts? && own.rule.form.Filler? && own.rule.form.kind != own.rule.form.dataKind
    requires IsResource(s) && property.IRI? && IsResource(filler)
    ensures var e := Restricted(own.rule.form.dataKind, s, property, [Field(own.property, filler)]); Lift(e.AsTriples()) == Ok([e])
  {
    hide Lift, OwnPass;
    var form := own.rule.form;
    var e := Restricted(form.dataKind, s, property, [Field(own.property, filler)]);
    PairDescribed(e, s, k, own, form.dataKind, property, filler);
    NoFamily(e.AsTriples(), property);
    hide Element.AsTriples, Standing, TYPE, RESTRICTION, PropertyFamily, OnlyTyped;
    FillerIff(e.AsTriples(), {}, s, own.property, form, true, property, filler);
    hide RestrictsStep, Restricted;
    SubjectAlone(e, k, own, s);
  }

  // A qualified count is described by the property and two values.
  lemma TripleDescribed(e: Element, s: Node, k: int, own: Pass, kind: Kind, property: Node, n: Node, data: bool, filler: Node)
    requires own.BySubject? && OwnPass(own, k) && IsResource(s)
    requires e == Restricted(kind, s, property, [Field(own.property, n), Field(if data then ON_DATA_RANGE else ON_CLASS, filler)])
    ensures var graph := e.AsTriples();
      && Has(graph, s, TYPE, RESTRICTION) && Objects(graph, s, ON_PROPERTY) == {property} && Objects(graph, s, own.property) == {n}
      && Objects(graph, s, if data then ON_DATA_RANGE else ON_CLASS) == {filler}
      && !HasAny(graph, s, if data then ON_CLASS else ON_DATA_RANGE) && Standing(graph, s, own.property, Some(RESTRICTION))
  {
    var q := if data then ON_DATA_RANGE else ON_CLASS;
    RestrictedFields(own, k, property, n, q, filler);
    hide OwnPass, Scanned, TYPE, FIRST, REST, ON_PROPERTY, ON_PROPERTIES, ON_CLASS, ON_DATA_RANGE, RESTRICTION;
    hide Element.AsTriples, DistinctFields, Objects, HasAny, Has, Standing, OnlyTyped, Around, OneScanned, SubjectsOf;
    var values := e.values;
    assert values == [Field(ON_PROPERTY, property), Field(own.property, n), Field(q, filler)];
    assert values[0] == Field(ON_PROPERTY, property) && values[1] == Field(own.property, n) && values[2] == Field(q, filler);
    AroundDescribed(e);
    DescribedHolds(e, 0);
    DescribedHolds(e, 1);
    DescribedHolds(e, 2);
    DescribedStands(e, 1);
    DescribedLacks(e, if data then ON_CLASS else ON_DATA_RANGE);
  }

  lemma QualifiedAlone(s: Node, k: int, own: Pass, data: bool, property: Node, n: Node, filler: Node)
    requires own.BySubject? && OwnPass(own, k) && own.rule.Restricts? && own.rule.form.Qualified?
    requires IsResource(s) && property.IRI? && IsNonNegativeInteger(n) && IsResource(filler)
    ensures var kind, qualifier := if data then own.rule.form.dataKind else own.rule.form.kind, if data then ON_DATA_RANGE else ON_CLASS;
      var e := Restricted(kind, s, property, [Field(own.property, n), Field(qualifier, filler)]);
      Lift(e.AsTriples()) == Ok([e])
  {
    hide Lift, OwnPass;
    var form := own.rule.form;
    var kind, qualifier := if data then form.dataKind else form.kind, if data then ON_DATA_RANGE else ON_CLASS;
    var e := Restricted(kind, s, property, [Field(own.property, n), Field(qualifier, filler)]);
    TripleDescribed(e, s, k, own, kind, property, n, data, filler);
    hide Element.AsTriples, Standing, TYPE, RESTRICTION, ON_PROPERTY, ON_CLASS, ON_DATA_RANGE, IsNonNegativeInteger;
    hide Objects, HasAny, Has;
    QualifiedIff(e.AsTriples(), {}, s, own.property, form, data, property, n, filler);
    hide RestrictsStep, Restricted;
    SubjectAlone(e, k, own, s);
  }

  lemma FillerListAlone(s: Node, k: int, own: Pass, list: Seq, filler: Node)
    requires own.BySubject? && OwnPass(own, k) && own.rule.Restricts? && own.rule.form.Filler? && Operate(list, Iri, 2) && IsResource(filler) && IsResource(s)
    ensures var e := OverList(own.rule.form.naryKind, s, list, own.property, filler); Lift(e.AsTriples()) == Ok([e])
  {
    hide Lift, OwnPass;
    var e := OverList(own.rule.form.naryKind, s, list, own.property, filler);
    OwnPassProperty(own, k);
    OnPropertySteady();
    Unscanned();
    hide Placed, Scanned, TYPE, FIRST, REST, ON_PROPERTY, ON_PROPERTIES, ON_CLASS, ON_DATA_RANGE, RESTRICTION;
    hide Element.AsTriples;
    assert list.Valid() && e.values == [Field(own.property, filler)];
    AroundList(e);
    OwnerHolds(e);
    OwnerStands(e);
    OwnerLacks(e, ON_PROPERTY);
    FillerListIff(e.AsTriples(), {}, s, own.property, own.rule.form, list, filler);
    hide Standing, RestrictsStep;
    SubjectAlone(e, k, own, s);
  }

  lemma OwnerLacks(e: Element, q: Node)
    requires e.ListOwner? && e.list.Valid() && q != TYPE && q != FIRST && q != REST && q != e.property
    requires forall f :: f in e.values ==> f.property != q
    requires Around(e.AsTriples(), e.name, TypeFields(e.declared) + [Field(e.property, e.list.Name())] + e.values, e.list.AsTriples())
    ensures !HasAny(e.AsTriples(), e.name, q)
  {
    hide Element.AsTriples, Seq.AsTriples, Around, TYPE, FIRST, REST, HasAny;
    FieldAbsent(e.AsTriples(), e.name, TypeFields(e.declared) + [Field(e.property, e.list.Name())] + e.values, e.list.AsTriples(), q);
  }

  // Lists of members

  ghost predicate NoneScanned(graph: set<Triple>) {
    forall t :: t in graph ==> !Scanned(t.p)
  }

  lemma NoSubjects(graph: set<Triple>, consumed: set<Triple>, known: set<Node>, pass: Pass, j: int)
    requires NoneScanned(graph) && Placed(pass, j) && j >= 0 && pass.BySubject?
    ensures Silent(graph, consumed, known, pass)
  {
    PlacedScanned(pass, j);
    hide Placed, Scanned, Step;
    assert SubjectsOf(graph, pass.property) == {};
  }

  lemma MemberOwn(own: Pass, k: int)
    requires 22 <= k <= 24 && |AllPasses()| == 55 && AllPasses()[k] == own
    ensures own.ByStatement? && own.source.WithType? && own.claim.OwnsMembers? && Placed(own, k)
    ensures MeaningOf(own.source.rdfType) == GroupTerm(k)
  {
    TablePlaced(k);
    GroupSizes();
    Groups(k);
    hide AllPasses, MeaningOf, GroupTerm, Owl;
  }

  lemma MembersConfined(graph: set<Triple>, s: Node)
    requires NoneScanned(graph)
    ensures Confined(graph, s, MEMBERS) && !StatementTerm(MeaningOf(MEMBERS))
  {
    hide MeaningOf, Scanned, MEMBERS;
    OwnMeanings();
  }

  lemma GroupsApart(j: int, k: int)
    ensures 22 <= j < k <= 24 ==> GroupTerm(j) != GroupTerm(k)
  {
  }

  lemma NoClaims()
    ensures ElementsOf([]) == [] && Claimed([]) == {}
  {
  }

  lemma BeforeMembers(graph: set<Triple>, s: Node, own: Pass, k: int, j: int)
    requires |AllPasses()| == 55 && 0 <= j < k <= 24 && 22 <= k && own.ByStatement? && own.source.WithType?
    requires MeaningOf(own.source.rdfType) == GroupTerm(k) && NoneScanned(graph) && OnlyTyped(graph, Some(own.source.rdfType))
    ensures ApplyPass(graph, [], AllPasses()[j]) == Ok([])
  {
    hide Placed, AllPasses, Silent, ApplyPass, MeaningOf, Known, GroupTerm, NoneScanned, OnlyTyped, Confined;
    hide StatementTerm, MEMBERS, ElementsOf, Claimed;
    GroupsApart(j, k);
    NoClaims();
    TablePlaced(j);
    MembersConfined(graph, s);
    var pass := AllPasses()[j];
    if pass.BySubject? {
      NoSubjects(graph, {}, Known(pass, []), pass, j);
    } else {
      EarlierStatements(graph, Known(pass, []), s, MEMBERS, Some(own.source.rdfType), pass, j);
    }
    SilentPass(graph, [], pass);
  }

  lemma AfterMembers(graph: set<Triple>, claim: Proposal, s: Node, k: int, j: int)
    requires |AllPasses()| == 55 && 22 <= k < j < 55 && NoneScanned(graph) && claim.triples == graph
    ensures ApplyPass(graph, [claim], AllPasses()[j]) == Ok([claim])
  {
    hide Placed, AllPasses, Silent, ApplyPass, MeaningOf, ElementsOf, Claimed, Known, NoneScanned, Confined;
    hide StatementTerm, MEMBERS;
    TablePlaced(j);
    OneClaim(claim);
    MembersConfined(graph, s);
    var pass := AllPasses()[j];
    var known := Known(pass, ElementsOf([claim]));
    if pass.BySubject? {
      NoSubjects(graph, graph, known, pass, j);
    } else {
      LaterStatements(graph, known, s, MEMBERS, pass, j);
    }
    SilentPass(graph, [claim], pass);
  }

  lemma StatementItem(graph: set<Triple>, own: Pass, t: Triple)
    requires own.ByStatement? && Candidates(graph, {}, own.source) == {t}
    ensures Items(graph, {}, own) == [Stated(t)]
  {
    TriplesOrdered();
    hide TripleLe, Candidates;
    SortingIsUnique(Sorted({t}, TripleLe), [t], {t}, TripleLe);
  }

  lemma StatementAlone(e: Element, k: int, own: Pass, t: Triple)
    requires 22 <= k <= 24 && |AllPasses()| == 55 && AllPasses()[k] == own && own.ByStatement? && own.source.WithType?
    requires WellFormed(e.AsTriples()) && NoneScanned(e.AsTriples()) && OnlyTyped(e.AsTriples(), Some(own.source.rdfType))
    requires Candidates(e.AsTriples(), {}, own.source) == {t}
    requires Makes(StatementStep(e.AsTriples(), {}, {}, t, own.claim), e)
    ensures Lift(e.AsTriples()) == Ok([e])
  {
    var graph, claim := e.AsTriples(), Whole(e);
    MemberOwn(own, k);
    OneClaim(claim);
    StatementItem(graph, own, t);
    hide Lift, WellFormed, Element.AsTriples, Candidates, Items, NoneScanned, OnlyTyped, StatementStep, Placed;
    hide MeaningOf, GroupTerm;
    OwnItem(graph, own, Stated(t), claim);
    forall j | 0 <= j < k ensures ApplyPass(graph, [], AllPasses()[j]) == Ok([]) {
      BeforeMembers(graph, t.s, own, k, j);
    }
    forall j | k < j < 55 ensures ApplyPass(graph, [claim], AllPasses()[j]) == Ok([claim]) {
      AfterMembers(graph, claim, t.s, k, j);
    }
    hide AllPasses, ApplyPass;
    RunAlone(graph, k, claim);
  }

  lemma CellsOfList(list: Seq)
    requires list.Valid()
    ensures SeqOf(CellsOf(list)) == list && |CellsOf(list)| == |list.entries| - 1
  {
    assert SeqOf(CellsOf(list)).entries == list.entries;
  }

  lemma GroupApart(rdfType: Node, k: int)
    requires 22 <= k <= 24 && MeaningOf(rdfType) == GroupTerm(k)
    ensures rdfType != DATATYPE_PROPERTY
  {
    hide Owl, MeaningOf;
    Meanings();
  }

  // A list of members of its own type.
  lemma MembersAlone(s: Node, k: int, own: Pass, list: Seq)
    requires 22 <= k <= 24 && |AllPasses()| == 55 && AllPasses()[k] == own && own.ByStatement? && own.source.WithType?
    requires own.claim.OwnsMembers? && IsResource(s) && Operate(list, Resource, 3)
    ensures var e := ListOwner(own.claim.kind, s, Some(own.source.rdfType), MEMBERS, list, []); Lift(e.AsTriples()) == Ok([e])
  {
    hide AllPasses, Lift, Placed, MeaningOf, GroupTerm, Scanned, TYPE, MEMBERS, DISTINCT_MEMBERS, Element.AsTriples;
    hide NoneScanned, WellFormed, SeqOf, CellsOf, HoldsList, AllDataProperties, OnlyTyped, HasAny, Candidates;
    hide OwnsMembersStep;
    var rdfType := own.source.rdfType;
    var e := ListOwner(own.claim.kind, s, Some(rdfType), MEMBERS, list, []);
    var t, cells := Triple(s, TYPE, rdfType), CellsOf(list);
    assert list.Valid();
    CellsOfList(list);
    hide Operate;
    MemberOwn(own, k);
    GroupApart(rdfType, k);
    MembersAround(e);
    NotData(e.AsTriples(), rdfType, cells);
    MembersIff(e.AsTriples(), {}, t, own.claim, cells);
    assert OfMembers(own.claim.kind, t, list) == e;
    StatementAlone(e, k, own, t);
  }

  lemma NotData(graph: set<Triple>, rdfType: Node, cells: seq<Cell>)
    requires OnlyTyped(graph, Some(rdfType)) && rdfType != DATATYPE_PROPERTY
    ensures !AllDataProperties(graph, cells)
  {
    hide TYPE, DATATYPE_PROPERTY;
    if cells != [] {
      assert !Has(graph, cells[0].value, TYPE, DATATYPE_PROPERTY);
    }
  }

  ghost predicate Membership(e: Element) {
    e.ListOwner? && e.list.Valid() && IsResource(e.name) && e.property == MEMBERS && e.values == [] && e.declared.Some?
  }

  lemma MembersHeld(e: Element)
    requires Membership(e)
    ensures Around(e.AsTriples(), e.name, [Field(TYPE, e.declared.value), Field(MEMBERS, e.list.Name())], e.list.AsTriples())
    ensures HoldsList(e.AsTriples(), {}, e.name, MEMBERS, e.list) && !HasAny(e.AsTriples(), e.name, DISTINCT_MEMBERS)
    ensures Has(e.AsTriples(), e.name, TYPE, e.declared.value)
  {
    MembersNotOlder();
    MembersPlain();
    assert MEMBERS.IRI?;
    hide TYPE, MEMBERS, DISTINCT_MEMBERS, FIRST, REST, Element.AsTriples, Seq.AsTriples, HasAny;
    AroundList(e);
    hide Around, HoldsList;
    OwnerHolds(e);
    OwnerLacks(e, DISTINCT_MEMBERS);
    assert TypeFields(e.declared) + [Field(e.property, e.list.Name())] + e.values ==
      [Field(TYPE, e.declared.value), Field(MEMBERS, e.list.Name())];
  }

  lemma MembersAround(e: Element)
    requires Membership(e)
    ensures var graph := e.AsTriples();
      && WellFormed(graph) && NoneScanned(graph) && OnlyTyped(graph, e.declared)
      && Candidates(graph, {}, WithType(e.declared.value)) == {Triple(e.name, TYPE, e.declared.value)}
      && HoldsList(graph, {}, e.name, MEMBERS, e.list) && !HasAny(graph, e.name, DISTINCT_MEMBERS)
  {
    hide Element.AsTriples, Seq.AsTriples, HasAny, HoldsList;
    MembersHeld(e);
    Unscanned();
    TypeIsNotList();
    MembersPlain();
    assert FIRST.IRI? && REST.IRI?;
    hide TYPE, MEMBERS, DISTINCT_MEMBERS, FIRST, REST, Scanned, Around;
    var graph, fields := e.AsTriples(), [Field(TYPE, e.declared.value), Field(MEMBERS, e.list.Name())];
    forall t | t in graph
      ensures IsResource(t.s) && IsResource(t.p) && !Scanned(t.p)
      ensures t.p == TYPE ==> t == Triple(e.name, TYPE, e.declared.value)
    {
      AroundTriple(graph, e.name, fields, e.list.AsTriples(), t);
    }
  }

  // Every class

  // The class is the one that an untyped graph calls for.
  predicate Untyped(kind: Kind) {
    SideOf(kind) == NoSide || SideOf(kind) == ByFamily(true) || SideOf(kind) == ByMembers(false)
  }

  lemma TableAt(i: int)
    ensures 0 <= i < 9 ==> OwnPass(ExpressionPasses()[i], i)
    ensures 0 <= i < 10 ==> OwnPass(RestrictionPasses()[i], 9 + i)
    ensures |ListAxiomPasses()| == 5 && |AxiomPasses()| == 12 && |ExpressionPasses()| == 9 && |RestrictionPasses()| == 10
    ensures OwnPass(ListAxiomPasses()[2], 21) && OwnPass(AxiomPasses()[3], 28) && OwnPass(AxiomPasses()[9], 34)
    ensures OwnPass(ListAxiomPasses()[3], 22) && OwnPass(ListAxiomPasses()[4], 23) && OwnPass(Differences(), 24)
  {
    GroupSizes();
    Groups(i);
    Groups(9 + i);
    Groups(21);
    Groups(22);
    Groups(23);
    Groups(24);
    Groups(28);
    Groups(34);
    hide ExpressionPasses, RestrictionPasses, ListAxiomPasses, Differences, AxiomPasses, CharacteristicPasses;
    hide DeclarationPasses, AssertionPasses, AllPasses;
  }

  lemma PairConforms(e: Element, c: FrameClass, p: Node, test: Test)
    requires e.kind == Frame(c) && Conforms(e) && FrameTemplate(c) == Slots(RESTRICTION, [Slot(ON_PROPERTY, Iri), Slot(p, test)])
    ensures e.Described? && |e.values| == 2 && e.values[0].operand.IRI? && Meets(e.values[1].operand, test)
    ensures e == Restricted(e.kind, e.name, e.values[0].operand, [Field(p, e.values[1].operand)])
  {
    hide FrameTemplate, RESTRICTION, ON_PROPERTY;
    var slots := [Slot(ON_PROPERTY, Iri), Slot(p, test)];
    assert slots[0] == Slot(ON_PROPERTY, Iri) && slots[1] == Slot(p, test);
    assert FillsSlots(e.values, slots);
    assert e.values == [e.values[0], e.values[1]];
  }

  lemma TripleConforms(e: Element, c: FrameClass, p: Node, q: Node)
    requires e.kind == Frame(c) && Conforms(e)
    requires FrameTemplate(c) == Slots(RESTRICTION, [Slot(ON_PROPERTY, Iri), Slot(p, Count), Slot(q, Resource)])
    ensures e.Described? && |e.values| == 3 && e.values[0].operand.IRI?
    ensures IsNonNegativeInteger(e.values[1].operand) && IsResource(e.values[2].operand)
    ensures e == Restricted(e.kind, e.name, e.values[0].operand, [Field(p, e.values[1].operand), Field(q, e.values[2].operand)])
  {
    hide FrameTemplate, RESTRICTION, ON_PROPERTY, IsNonNegativeInteger;
    var slots := [Slot(ON_PROPERTY, Iri), Slot(p, Count), Slot(q, Resource)];
    assert slots[0] == Slot(ON_PROPERTY, Iri) && slots[1] == Slot(p, Count) && slots[2] == Slot(q, Resource);
    assert FillsSlots(e.values, slots);
    assert e.values == [e.values[0], e.values[1], e.values[2]];
  }

  lemma SimpleFrame(e: Element, c: FrameClass, own: Pass, k: int, test: Test)
    requires own.BySubject? && OwnPass(own, k) && own.rule.Restricts? && e.kind == Frame(c) && Conforms(e) && IsResource(e.name)
    requires FrameTemplate(c) == Slots(RESTRICTION, [Slot(ON_PROPERTY, Iri), Slot(own.property, test)])
    requires forall v :: Meets(v, test) ==> SimpleKind(own.rule.form, Frame(c), v)
    ensures Lift(e.AsTriples()) == Ok([e])
  {
    hide Lift, OwnPass, FrameTemplate, Conforms, SimpleKind, Meets, RESTRICTION, ON_PROPERTY, Element.AsTriples;
    PairConforms(e, c, own.property, test);
    hide Restricted;
    SimpleAlone(e.name, k, own, e.kind, e.values[0].operand, e.values[1].operand);
  }

  lemma FillerFrame(e: Element, c: FrameClass, own: Pass, k: int)
    requires own.BySubject? && OwnPass(own, k) && own.rule.Restricts? && e.kind == Frame(c) && Conforms(e) && IsResource(e.name)
    requires FrameTemplate(c) == Slots(RESTRICTION, [Slot(ON_PROPERTY, Iri), Slot(own.property, Resource)])
    requires own.rule.form.Filler? && own.rule.form.dataKind == Frame(c) && own.rule.form.kind != Frame(c)
    ensures Lift(e.AsTriples()) == Ok([e])
  {
    hide Lift, OwnPass, FrameTemplate, Conforms, RESTRICTION, ON_PROPERTY, Element.AsTriples;
    PairConforms(e, c, own.property, Resource);
    hide Restricted;
    FillerAlone(e.name, k, own, e.values[0].operand, e.values[1].operand);
  }

  lemma QualifiedFrame(e: Element, c: FrameClass, own: Pass, k: int, data: bool)
    requires own.BySubject? && OwnPass(own, k) && own.rule.Restricts? && e.kind == Frame(c) && Conforms(e) && IsResource(e.name)
    requires var q := if data then ON_DATA_RANGE else ON_CLASS;
      FrameTemplate(c) == Slots(RESTRICTION, [Slot(ON_PROPERTY, Iri), Slot(own.property, Count), Slot(q, Resource)])
    requires own.rule.form.Qualified? && Frame(c) == if data then own.rule.form.dataKind else own.rule.form.kind
    ensures Lift(e.AsTriples()) == Ok([e])
  {
    hide Lift, OwnPass, FrameTemplate, Conforms, RESTRICTION, ON_PROPERTY, ON_CLASS, ON_DATA_RANGE, Element.AsTriples;
    hide IsNonNegativeInteger;
    TripleConforms(e, c, own.property, if data then ON_DATA_RANGE else ON_CLASS);
    hide Restricted;
    QualifiedAlone(e.name, k, own, data, e.values[0].operand, e.values[1].operand, e.values[2].operand);
  }

  lemma OperandFrame(e: Element, c: FrameClass, own: Pass, k: int)
    requires own.BySubject? && OwnPass(own, k) && own.rule.HasOperand? && e.kind == Frame(c) && Conforms(e) && IsResource(e.name)
    requires own.rule.kind == Frame(c) && FrameTemplate(c) == Slots(own.rule.rdfType, [Slot(own.property, Resource)])
    ensures Lift(e.AsTriples()) == Ok([e])
  {
    hide Lift, OwnPass, FrameTemplate, Element.AsTriples;
    var slots := [Slot(own.property, Resource)];
    assert slots[0] == Slot(own.property, Resource) && FillsSlots(e.values, slots);
    assert e.values == [Field(own.property, e.values[0].operand)];
    OperandAlone(e.name, k, own, e.values[0].operand);
  }

  // The passes of the table for each class

  lemma ComplementFrames(e: Element, c: FrameClass)
    requires e.kind == Frame(c) && Conforms(e) && IsResource(e.name) && (c == DataComplementOf || c == ObjectComplementOf)
    ensures Lift(e.AsTriples()) == Ok([e])
  {
    hide Lift, Element.AsTriples, Owl, OwnPass, Conforms;
    var k := if c == DataComplementOf then 4 else 5;
    TableAt(k);
    OperandFrame(e, c, ExpressionPasses()[k], k);
  }

  lemma ValueFrames(e: Element, c: FrameClass)
    requires e.kind == Frame(c) && Conforms(e) && IsResource(e.name)
    requires c == ObjectHasSelf || c == DataHasValue || c == ObjectHasValue
    ensures Lift(e.AsTriples()) == Ok([e])
  {
    hide Lift, Element.AsTriples, Owl, OwnPass, Conforms, TRUE_BOOLEAN;
    var i := if c == ObjectHasSelf then 0 else 1;
    TableAt(i);
    SimpleFrame(e, c, RestrictionPasses()[i], 9 + i,
      if c == ObjectHasSelf then TrueBoolean else if c == DataHasValue then LiteralNode else Resource);
  }

  lemma CountFrames(e: Element, c: FrameClass)
    requires e.kind == Frame(c) && Conforms(e) && IsResource(e.name)
    requires c == DataMinCardinality || c == DataMaxCardinality || c == DataExactCardinality
    ensures Lift(e.AsTriples()) == Ok([e])
  {
    hide Lift, Element.AsTriples, Owl, OwnPass, Conforms, IsNonNegativeInteger;
    var i := if c == DataMinCardinality then 5 else if c == DataMaxCardinality then 6 else 7;
    TableAt(i);
    SimpleFrame(e, c, RestrictionPasses()[i], 9 + i, Count);
  }

  lemma FillerFrames(e: Element, c: FrameClass)
    requires e.kind == Frame(c) && Conforms(e) && IsResource(e.name) && (c == DataSomeValuesFrom || c == DataAllValuesFrom)
    ensures Lift(e.AsTriples()) == Ok([e])
  {
    hide Lift, Element.AsTriples, Owl, OwnPass, Conforms;
    var i := if c == DataSomeValuesFrom then 8 else 9;
    TableAt(i);
    FillerFrame(e, c, RestrictionPasses()[i], 9 + i);
  }

  lemma QualifiedFrames(e: Element, c: FrameClass)
    requires e.kind == Frame(c) && Conforms(e) && IsResource(e.name)
    requires c in {ObjectMinCardinalityQualified, DataMinCardinalityQualified, ObjectMaxCardinalityQualified,
                   DataMaxCardinalityQualified, ObjectExactCardinalityQualified, DataExactCardinalityQualified}
    ensures Lift(e.AsTriples()) == Ok([e])
  {
    hide Lift, Element.AsTriples, Owl, OwnPass, Conforms;
    var i := if c == ObjectMinCardinalityQualified || c == DataMinCardinalityQualified then 2
      else if c == ObjectMaxCardinalityQualified || c == DataMaxCardinalityQualified then 3 else 4;
    var data := c == DataMinCardinalityQualified || c == DataMaxCardinalityQualified || c == DataExactCardinalityQualified;
    TableAt(i);
    QualifiedFrame(e, c, RestrictionPasses()[i], 9 + i, data);
  }

  lemma UntypedFrames(e: Element, c: FrameClass)
    requires e.kind == Frame(c) && Conforms(e) && IsResource(e.name) && Untyped(e.kind)
    ensures Lift(e.AsTriples()) == Ok([e])
  {
    hide Lift, Element.AsTriples, Conforms;
    match c {
      case DataComplementOf | ObjectComplementOf => ComplementFrames(e, c);
      case ObjectHasSelf | DataHasValue | ObjectHasValue => ValueFrames(e, c);
      case DataMinCardinality | DataMaxCardinality | DataExactCardinality => CountFrames(e, c);
      case DataSomeValuesFrom | DataAllValuesFrom => FillerFrames(e, c);
      case ObjectMinCardinalityQualified | DataMinCardinalityQualified | ObjectMaxCardinalityQualified => QualifiedFrames(e, c);
      case DataMaxCardinalityQualified | ObjectExactCardinalityQualified | DataExactCardinalityQualified => QualifiedFrames(e, c);
      case _ =>
    }
  }

  // Lists

  lemma OwnerConforms(e: Element, c: ListClass, declared: Option<Node>, p: Node, members: Test, minimum: nat)
    requires e.kind == Listing(c) && Conforms(e) && ListTemplate(c) == Operands(declared, p, members, minimum, [])
    ensures e == ListOwner(e.kind, e.name, declared, p, e.list, []) && Operate(e.list, members, minimum)
  {
    hide ListTemplate, Operate;
    assert FillsSlots(e.values, []);
  }

  lemma OwnerList(e: Element, c: ListClass, own: Pass, k: int)
    requires own.BySubject? && OwnPass(own, k) && own.rule.OwnsList? && e.kind == Listing(c) && Conforms(e) && IsResource(e.name)
    requires own.rule.kind == Listing(c)
    requires var members := if own.rule.literals then LiteralNode else Resource;
      ListTemplate(c) == Operands(own.rule.declared, own.property, members, own.rule.minimum, [])
    ensures Lift(e.AsTriples()) == Ok([e])
  {
    hide Lift, OwnPass, ListTemplate, Conforms, Element.AsTriples, Operate;
    OwnerConforms(e, c, own.rule.declared, own.property, if own.rule.literals then LiteralNode else Resource, own.rule.minimum);
    OwnsListAlone(e.name, k, own, e.list);
  }

  lemma FillerOwner(e: Element, c: ListClass, own: Pass, k: int)
    requires own.BySubject? && OwnPass(own, k) && own.rule.Restricts? && e.kind == Listing(c) && Conforms(e) && IsResource(e.name)
    requires own.rule.form.Filler? && own.rule.form.naryKind == Listing(c)
    requires ListTemplate(c) == Operands(Some(RESTRICTION), ON_PROPERTIES, Iri, 2, [Slot(own.property, Resource)])
    ensures Lift(e.AsTriples()) == Ok([e])
  {
    hide Lift, OwnPass, ListTemplate, Element.AsTriples, Operate, RESTRICTION, ON_PROPERTIES;
    var slots := [Slot(own.property, Resource)];
    assert slots[0] == Slot(own.property, Resource) && FillsSlots(e.values, slots);
    assert e.values == [Field(own.property, e.values[0].operand)];
    FillerListAlone(e.name, k, own, e.list, e.values[0].operand);
  }

  lemma MemberOwner(e: Element, c: ListClass, own: Pass, k: int)
    requires 22 <= k <= 24 && OwnPass(own, k) && own.ByStatement? && own.source.WithType? && own.claim.OwnsMembers?
    requires e.kind == Listing(c) && Conforms(e) && IsResource(e.name) && own.claim.kind == Listing(c)
    requires ListTemplate(c) == Operands(Some(own.source.rdfType), MEMBERS, Resource, 3, [])
    ensures Lift(e.AsTriples()) == Ok([e])
  {
    hide Lift, ListTemplate, Conforms, Element.AsTriples, Operate, MEMBERS, AllPasses;
    OwnerConforms(e, c, Some(own.source.rdfType), MEMBERS, Resource, 3);
    MembersAlone(e.name, k, own, e.list);
  }

  lemma OperandLists(e: Element, c: ListClass)
    requires e.kind == Listing(c) && Conforms(e) && IsResource(e.name)
    requires c in {DataIntersectionOf, ObjectIntersectionOf, DataUnionOf, ObjectUnionOf, DataOneOf, ObjectOneOf}
    ensures Lift(e.AsTriples()) == Ok([e])
  {
    hide Lift, Element.AsTriples, Owl, OwnPass, Conforms;
    var k := if c == DataIntersectionOf then 0 else if c == ObjectIntersectionOf then 1 else if c == DataUnionOf then 2
      else if c == ObjectUnionOf then 3 else if c == DataOneOf then 6 else 7;
    TableAt(k);
    OwnerList(e, c, ExpressionPasses()[k], k);
  }

  lemma AxiomLists(e: Element, c: ListClass)
    requires e.kind == Listing(c) && Conforms(e) && IsResource(e.name)
    requires c == DisjointUnion || c == SubObjectPropertyOfChain || c == ListClass.HasKey
    ensures Lift(e.AsTriples()) == Ok([e])
  {
    hide Lift, Element.AsTriples, Owl, Rdfs, OwnPass, Conforms;
    TableAt(0);
    if c == DisjointUnion {
      OwnerList(e, c, ListAxiomPasses()[2], 21);
    } else if c == SubObjectPropertyOfChain {
      OwnerList(e, c, AxiomPasses()[3], 28);
    } else {
      OwnerList(e, c, AxiomPasses()[9], 34);
    }
  }

  lemma OtherLists(e: Element, c: ListClass)
    requires e.kind == Listing(c) && Conforms(e) && IsResource(e.name)
    requires c in {DataSomeValuesFromNary, DataAllValuesFromNary, DisjointClassesNary, DisjointObjectPropertiesNary, DifferentIndividualsNary}
    ensures Lift(e.AsTriples()) == Ok([e])
  {
    hide Lift, Element.AsTriples, Owl, OwnPass, Conforms;
    TableAt(8);
    TableAt(9);
    match c {
      case DataSomeValuesFromNary => FillerOwner(e, c, RestrictionPasses()[8], 17);
      case DataAllValuesFromNary => FillerOwner(e, c, RestrictionPasses()[9], 18);
      case DisjointClassesNary => MemberOwner(e, c, ListAxiomPasses()[3], 22);
      case DisjointObjectPropertiesNary => MemberOwner(e, c, ListAxiomPasses()[4], 23);
      case _ => MemberOwner(e, c, Differences(), 24);
    }
  }

  lemma UntypedLists(e: Element, c: ListClass)
    requires e.kind == Listing(c) && Conforms(e) && IsResource(e.name) && Untyped(e.kind)
    ensures Lift(e.AsTriples()) == Ok([e])
  {
    hide Lift, Element.AsTriples, Conforms;
    match c {
      case DataIntersectionOf | ObjectIntersectionOf | DataUnionOf | ObjectUnionOf | DataOneOf | ObjectOneOf => OperandLists(e, c);
      case DisjointUnion | SubObjectPropertyOfChain | HasKey => AxiomLists(e, c);
      case DisjointDataPropertiesNary =>
      case _ => OtherLists(e, c);
    }
  }

  // Classes that need more than the element itself

  // The pass that makes object restrictions and their data counterparts.
  lemma FamilyNeedsTyping(e: Element, c: FrameClass)
    requires e.kind == Frame(c) && Conforms(e) && IsResource(e.name)
    requires c in {ObjectMinCardinality, ObjectMaxCardinality, ObjectExactCardinality, ObjectSomeValuesFrom, ObjectAllValuesFrom}
    ensures e.Described? && |e.values| > 0 && PropertyFamily(e.AsTriples(), e.values[0].operand) == Ok(false)
  {
    hide Element.AsTriples, Owl, OwnPass, Conforms, PropertyFamily;
    var i := if c == ObjectMinCardinality then 5 else if c == ObjectMaxCardinality then 6 else if c == ObjectExactCardinality then 7
      else if c == ObjectSomeValuesFrom then 8 else 9;
    TableAt(i);
    var own := RestrictionPasses()[i];
    PairConforms(e, c, own.property, if i < 8 then Count else Resource);
    var property, v := e.values[0].operand, e.values[1].operand;
    hide RestrictionPasses, Standing, Restricted;
    PairDescribed(e, e.name, 9 + i, own, e.kind, property, v);
    NoFamily(e.AsTriples(), property);
  }

  lemma MembersNeedTyping(e: Element)
    requires e.kind == Listing(DisjointDataPropertiesNary) && Conforms(e) && IsResource(e.name)
    ensures !MembersAreData(e.AsTriples(), e.list)
  {
    hide Element.AsTriples, TYPE, Owl, MEMBERS;
    assert e.declared == Some(Owl(AllDisjointProperties)) && e.property == MEMBERS && |e.list.entries| > 3 && e.values == [];
    assert e.list.entries[0].value.Some?;
    MembersAround(e);
    AnotherType();
    assert !Has(e.AsTriples(), e.list.entries[0].value.value, TYPE, DATATYPE_PROPERTY);
  }

  lemma AnotherType()
    ensures Owl(AllDisjointProperties) != DATATYPE_PROPERTY
  {
    hide Owl, MeaningOf;
    Meanings();
  }

  // A negative assertion does not name the property it is about.
  lemma NegationNamesNothing(e: Element, data: bool)
    requires e.kind == Frame(NegativeObjectPropertyAssertion) || e.kind == Frame(NegativeDataPropertyAssertion)
    requires Conforms(e)
    ensures KnownProperties([e], data) == {}
  {
    hide Owl;
    assert e.Described?;
    assert ObjectProperties(e) == {} && DataProperties(e) == {} by { hide ValuesAt; }
    hide ObjectProperties, DataProperties;
  }

  lemma NotUntyped(e: Element)
    requires (e.kind.Frame? || e.kind.Listing?) && Conforms(e) && IsResource(e.name) && !Untyped(e.kind)
    ensures !Choices.Chosen(e.AsTriples(), [e], e)
  {
    hide Element.AsTriples, Conforms, PropertyFamily, MembersAreData, KnownProperties;
    match e.kind {
      case Frame(c) =>
        if c == NegativeObjectPropertyAssertion || c == NegativeDataPropertyAssertion {
          NegationNamesNothing(e, c == NegativeDataPropertyAssertion);
        } else {
          FamilyNeedsTyping(e, c);
        }
      case Listing(c) => MembersNeedTyping(e);
    }
  }

  lemma OnlyChosen(e: Element)
    ensures Lift(e.AsTriples()) == Ok([e]) ==> Choices.Chosen(e.AsTriples(), [e], e)
  {
    hide Lift, Element.AsTriples, Choices.Chosen;
    assert e in [e];
    if Lift(e.AsTriples()) == Ok([e]) {
      LiftChooses(e.AsTriples());
    }
  }

  // The theorem: standing alone in a graph an element is lifted from what it
  // prints if and only if its class is the one that an untyped graph calls for.
  lemma AloneIff(e: Element)
    requires (e.kind.Frame? || e.kind.Listing?) && Conforms(e) && IsResource(e.name)
    ensures Lift(e.AsTriples()) == Ok([e]) <==> Untyped(e.kind)
  {
    hide Lift, Conforms, Element.AsTriples, SideOf;
    if Untyped(e.kind) {
      match e.kind {
        case Frame(c) => UntypedFrames(e, c);
        case Listing(c) => UntypedLists(e, c);
      }
    } else {
      NotUntyped(e);
      OnlyChosen(e);
    }
  }

  // Datatype restrictions

  // The rows have their anchors for themselves, and their facets are not
  // properties that other passes look for.
  ghost predicate ProperRows(s: Node, facets: seq<Facet>) {
    && SeqOf(FacetCells(facets)).Valid()
    && (forall i :: 0 <= i < |facets| ==>
          && IsResource(facets[i].anchor) && facets[i].anchor != s && facets[i].facet.IRI?
          && facets[i].facet != FIRST && facets[i].facet != REST && !Scanned(facets[i].facet))
    && forall i, j :: 0 <= i < j < |facets| && facets[i].anchor == facets[j].anchor ==>
         facets[i].facet == facets[j].facet && facets[i].value == facets[j].value
  }

  lemma FacetTriple(s: Node, onDatatype: Node, facets: seq<Facet>, t: Triple)
    requires ProperRows(s, facets) && t in Faceted(DatatypeRestriction, s, onDatatype, facets).AsTriples()
    ensures t == Triple(s, TYPE, DATATYPE) || t == Triple(s, ON_DATATYPE, onDatatype) ||
      t == Triple(s, WITH_RESTRICTIONS, FacetHead(facets)) ||
      (t in CellTriples(FacetCells(facets)) && (t.p == FIRST || t.p == REST) && IsResource(t.s)) ||
      exists i :: 0 <= i < |facets| && t == Triple(facets[i].anchor, facets[i].facet, facets[i].value)
  {
    hide TYPE, DATATYPE, ON_DATATYPE, WITH_RESTRICTIONS, FIRST, REST, Scanned;
    if t in CellTriples(FacetCells(facets)) {
      SeqOfTriples(FacetCells(facets));
      ListRest(SeqOf(FacetCells(facets)));
    }
  }

  lemma RowProperties()
    ensures WITH_RESTRICTIONS != TYPE && WITH_RESTRICTIONS != ON_DATATYPE && ON_DATATYPE != TYPE
    ensures WITH_RESTRICTIONS != FIRST && WITH_RESTRICTIONS != REST && ON_DATATYPE != FIRST && ON_DATATYPE != REST
    ensures Scanned(WITH_RESTRICTIONS) && WITH_RESTRICTIONS.IRI? && ON_DATATYPE.IRI? && TYPE.IRI? && FIRST.IRI? && REST.IRI?
  {
    hide Owl, MeaningOf, TYPE, FIRST, REST;
    assert TYPE.IRI? && FIRST.IRI? && REST.IRI? && WITH_RESTRICTIONS.IRI? && ON_DATATYPE.IRI? by { RowIris(); }
    Meanings();
  }

  lemma RowIris()
    ensures TYPE.IRI? && FIRST.IRI? && REST.IRI? && WITH_RESTRICTIONS.IRI? && ON_DATATYPE.IRI?
  {
  }

  lemma RestrictionStands(s: Node, onDatatype: Node, facets: seq<Facet>)
    requires ProperRows(s, facets) && IsResource(s)
    ensures Standing(Faceted(DatatypeRestriction, s, onDatatype, facets).AsTriples(), s, WITH_RESTRICTIONS, Some(DATATYPE))
  {
    var graph := Faceted(DatatypeRestriction, s, onDatatype, facets).AsTriples();
    assert Triple(s, WITH_RESTRICTIONS, FacetHead(facets)) in graph;
    RowProperties();
    Unscanned();
    hide TYPE, DATATYPE, ON_DATATYPE, WITH_RESTRICTIONS, FIRST, REST, Scanned, Element.AsTriples, CellTriples;
    hide FacetCells, FacetHead;
    TypeIsNotList();
    forall t | t in graph
      ensures IsResource(t.s) && IsResource(t.p)
      ensures Scanned(t.p) ==> t.p == WITH_RESTRICTIONS && t.s == s
      ensures t.p == TYPE && t.s == s ==> t.o == DATATYPE
    {
      FacetTriple(s, onDatatype, facets, t);
    }
  }

  lemma RestrictionTriples(s: Node, onDatatype: Node, facets: seq<Facet>, t: Triple)
    requires ProperRows(s, facets) && t in Faceted(DatatypeRestriction, s, onDatatype, facets).AsTriples()
    ensures t.p == FIRST || t.p == REST ==> t in SeqOf(FacetCells(facets)).AsTriples()
    ensures t.p == ON_DATATYPE && t.s == s ==> t.o == onDatatype
    ensures t.p == WITH_RESTRICTIONS && t.s == s ==> t.o == FacetHead(facets)
  {
    RowProperties();
    TypeIsNotList();
    SeqOfTriples(FacetCells(facets));
    hide TYPE, DATATYPE, ON_DATATYPE, WITH_RESTRICTIONS, FIRST, REST, Scanned, Element.AsTriples, Seq.AsTriples;
    hide CellTriples, FacetHead, FacetCells, SeqOf;
    FacetTriple(s, onDatatype, facets, t);
  }

  lemma RestrictionHolds(s: Node, onDatatype: Node, facets: seq<Facet>)
    requires ProperRows(s, facets) && IsResource(s)
    ensures var graph := Faceted(DatatypeRestriction, s, onDatatype, facets).AsTriples();
      && Has(graph, s, TYPE, DATATYPE) && Objects(graph, s, ON_DATATYPE) == {onDatatype}
      && HoldsList(graph, {}, s, WITH_RESTRICTIONS, SeqOf(FacetCells(facets)))
  {
    hide TYPE, DATATYPE, ON_DATATYPE, WITH_RESTRICTIONS, FIRST, REST, Scanned, Seq.AsTriples, CellTriples, FacetHead;
    hide FacetCells, SeqOf, AnchorTriples;
    var graph := Faceted(DatatypeRestriction, s, onDatatype, facets).AsTriples();
    var list := SeqOf(FacetCells(facets));
    SeqOfTriples(FacetCells(facets));
    HeadOfRows(facets);
    assert list.AsTriples() <= graph && Triple(s, WITH_RESTRICTIONS, list.Name()) in graph;
    assert Triple(s, TYPE, DATATYPE) in graph && Triple(s, ON_DATATYPE, onDatatype) in graph;
    hide Element.AsTriples, Seq.Name;
    forall t | t in graph
      ensures t.p == FIRST || t.p == REST ==> t in list.AsTriples()
      ensures t.p == ON_DATATYPE && t.s == s ==> t.o == onDatatype
      ensures t.p == WITH_RESTRICTIONS && t.s == s ==> t.o == list.Name()
    {
      RestrictionTriples(s, onDatatype, facets, t);
    }
    assert list.Valid();
    hide ProperRows, FacetTriples, Seq.Valid;
  }

  lemma RestrictionRows(s: Node, onDatatype: Node, facets: seq<Facet>, i: int)
    requires ProperRows(s, facets) && 0 <= i < |facets|
    ensures HoldsRow(Faceted(DatatypeRestriction, s, onDatatype, facets).AsTriples(), {}, facets[i])
  {
    var graph, f := Faceted(DatatypeRestriction, s, onDatatype, facets).AsTriples(), facets[i];
    var row := Triple(f.anchor, f.facet, f.value);
    assert row in AnchorTriples(facets) && row in graph;
    hide TYPE, DATATYPE, ON_DATATYPE, WITH_RESTRICTIONS, FIRST, REST, Scanned, Element.AsTriples, CellTriples;
    hide FacetHead, AnchorTriples;
    forall t | t in FacetCandidates(graph, f.anchor) ensures t == row {
      FacetTriple(s, onDatatype, facets, t);
      hide FacetCells, SeqOf;
      var j :| 0 <= j < |facets| && t == Triple(facets[j].anchor, facets[j].facet, facets[j].value);
      assert j < i ==> facets[j].facet == facets[i].facet && facets[j].value == facets[i].value;
      assert i < j ==> facets[i].facet == facets[j].facet && facets[i].value == facets[j].value;
    }
  }

  lemma FacetPass() returns (own: Pass)
    ensures own == ExpressionPasses()[8] == BySubject(WITH_RESTRICTIONS, HasFacets)
  {
    hide Owl;
    own := ExpressionPasses()[8];
  }

  // A datatype restriction with such rows is lifted from what it prints.
  lemma FacetsAlone(s: Node, onDatatype: Node, facets: seq<Facet>)
    requires ProperRows(s, facets) && IsResource(s) && onDatatype.IRI?
    ensures var e := Faceted(DatatypeRestriction, s, onDatatype, facets); Lift(e.AsTriples()) == Ok([e])
  {
    var e := Faceted(DatatypeRestriction, s, onDatatype, facets);
    TableAt(8);
    var own := FacetPass();
    hide Lift, ExpressionPasses, OwnPass, Element.AsTriples, TYPE, DATATYPE, ON_DATATYPE, WITH_RESTRICTIONS, HoldsRow;
    hide HoldsList;
    forall i | 0 <= i < |facets| ensures HoldsRow(e.AsTriples(), {}, facets[i]) {
      RestrictionRows(s, onDatatype, facets, i);
    }
    RestrictionHolds(s, onDatatype, facets);
    RestrictionStands(s, onDatatype, facets);
    HasFacetsIff(e.AsTriples(), {}, s, onDatatype, facets);
    hide Standing, HasFacetsStep, ProperRows;
    SubjectAlone(e, 8, own, s);
  }
}
