// Every claim is exact: the element prints the triples it claims.
module Claims {
  import opened Rdf
  import opened RdfLists
  import opened Kinds
  import opened Elements
  import opened Passes

  // The only triples that come back changed: the older list property at a
  // node that is typed owl:AllDifferent.
  predicate Legacy(graph: set<Triple>, t: Triple) {
    t.p == DISTINCT_MEMBERS && Triple(t.s, TYPE, ALL_DIFFERENT) in graph
  }

  function Renamed(graph: set<Triple>, t: Triple): Triple {
    if Legacy(graph, t) then Triple(t.s, MEMBERS, t.o) else t
  }

  function RenamedAll(graph: set<Triple>, triples: set<Triple>): set<Triple> {
    set t | t in triples :: Renamed(graph, t)
  }

  ghost predicate Exact(graph: set<Triple>, p: Proposal) {
    p.triples <= graph && p.element.AsTriples() == RenamedAll(graph, p.triples)
  }

  // Triples that are not renamed, and that do not take the type triple of an
  // n-ary difference that still has to be renamed.
  ghost predicate Ordinary(graph: set<Triple>, triples: set<Triple>) {
    forall t :: t in triples ==> !Legacy(graph, t) && !Awaited(graph, t)
  }

  ghost predicate Awaited(graph: set<Triple>, t: Triple) {
    t.p == TYPE && t.o == ALL_DIFFERENT && HasAny(graph, t.s, DISTINCT_MEMBERS)
  }

  lemma OrdinaryUnchanged(graph: set<Triple>, triples: set<Triple>)
    requires forall t :: t in triples ==> !Legacy(graph, t)
    ensures RenamedAll(graph, triples) == triples
  {
    hide Legacy;
    forall t | t in triples ensures Renamed(graph, t) == t {}
    forall t | t in triples ensures t in RenamedAll(graph, triples) {
      assert Renamed(graph, t) == t;
    }
  }

  // The parts of a claim

  lemma ValueInGraph(graph: set<Triple>, s: Node, p: Node)
    requires Value(graph, s, p).Some?
    ensures Triple(s, p, Value(graph, s, p).value) in graph
    ensures Objects(graph, s, p) == {Value(graph, s, p).value}
  {
    assert Value(graph, s, p).value in Objects(graph, s, p);
  }

  lemma ListAtExact(graph: set<Triple>, consumed: set<Triple>, s: Node, p: Node)
    requires ListAt(graph, consumed, s, p).Ok?
    ensures var (head, cells) := ListAt(graph, consumed, s, p).value;
      && Triple(s, p, head) in graph && Objects(graph, s, p) == {head}
      && CellTriples(cells) <= graph
      && SeqOf(cells).AsTriples() == CellTriples(cells) && SeqOf(cells).entries != [] && SeqOf(cells).Name() == head
      && (cells == [] <==> head == NIL) && (cells != [] ==> cells[0].cell == head)
      && forall t :: t in CellTriples(cells) ==> t.p == FIRST || t.p == REST
  {
    ValueInGraph(graph, s, p);
    var (head, cells) := ListAt(graph, consumed, s, p).value;
    WalkIsExact(graph, consumed, head);
    SeqOfTriples(cells);
    hide FIRST, REST;
    if cells != [] {
      assert SeqOf(cells).entries[0] == Entry(cells[0].cell, Some(cells[0].value));
    } else {
      assert SeqOf(cells).entries == [Entry(NIL, None)];
    }
  }

  // A property that neither the type triples nor the older lists use.
  ghost predicate PlainProperty(p: Node) {
    p != TYPE && p != DISTINCT_MEMBERS
  }

  lemma TypeDistinct()
    ensures TYPE != DISTINCT_MEMBERS && TYPE != FIRST && TYPE != REST && DISTINCT_MEMBERS != FIRST && DISTINCT_MEMBERS != REST
  {
    hide Owl, Rdfs, TYPE, MeaningOf;
    Meanings();
  }

  lemma TypesDistinct()
    ensures DATATYPE != ALL_DIFFERENT && CLASS != ALL_DIFFERENT && RESTRICTION != ALL_DIFFERENT && NEGATIVE_ASSERTION != ALL_DIFFERENT
  {
    hide Owl, Rdfs, TYPE, MeaningOf;
    Meanings();
  }

  lemma OwnPropertiesPlain()
    ensures PlainProperty(FIRST) && PlainProperty(REST) && PlainProperty(MEMBERS)
    ensures PlainProperty(ON_PROPERTY) && PlainProperty(ON_PROPERTIES) && PlainProperty(ON_CLASS) && PlainProperty(ON_DATA_RANGE)
    ensures PlainProperty(ON_DATATYPE) && PlainProperty(WITH_RESTRICTIONS)
    ensures PlainProperty(SOURCE_INDIVIDUAL) && PlainProperty(ASSERTION_PROPERTY)
    ensures PlainProperty(TARGET_INDIVIDUAL) && PlainProperty(TARGET_VALUE)
  {
    hide Owl, Rdfs, TYPE, MeaningOf;
    Meanings();
  }

  lemma ListsOrdinary(graph: set<Triple>, triples: set<Triple>)
    requires forall t :: t in triples ==> t.p == FIRST || t.p == REST
    ensures Ordinary(graph, triples)
  {
    OwnPropertiesPlain();
  }

  lemma PropertyOrdinary(graph: set<Triple>, t: Triple)
    requires PlainProperty(t.p)
    ensures Ordinary(graph, {t})
  {
  }

  lemma TypeOrdinary(graph: set<Triple>, t: Triple)
    requires t.p == TYPE && t.o != ALL_DIFFERENT
    ensures Ordinary(graph, {t})
  {
    TypeDistinct();
  }

  lemma OrdinaryPlus(graph: set<Triple>, a: set<Triple>, b: set<Triple>)
    requires Ordinary(graph, a) && Ordinary(graph, b)
    ensures Ordinary(graph, a + b)
  {
    hide Legacy, Awaited;
  }

  lemma NothingOrdinary(graph: set<Triple>)
    ensures Ordinary(graph, {})
  {
  }

  lemma ListOwnerPrints(kind: Kind, s: Node, declared: Option<Node>, p: Node, list: Seq, values: seq<Field>)
    requires list.entries != []
    ensures ListOwner(kind, s, declared, p, list, values).AsTriples() ==
      list.AsTriples() + TypeTriples(s, declared) + FieldTriples(s, values) + {Triple(s, p, list.Name())}
  {
  }

  lemma FewFields(s: Node, f: Field)
    ensures FieldTriples(s, []) == {} && FieldTriples(s, [f]) == {Triple(s, f.property, f.operand)}
  {
    assert [f][0] == f;
  }

  // A claim whose element prints just the triples, none of which is special.
  lemma OrdinaryExact(graph: set<Triple>, p: Proposal)
    requires p.triples <= graph && p.element.AsTriples() == p.triples && Ordinary(graph, p.triples)
    ensures Exact(graph, p)
  {
    OrdinaryUnchanged(graph, p.triples);
  }

  lemma DescribedExact(graph: set<Triple>, kind: Kind, s: Node, rdfType: Node, values: seq<Field>)
    requires Triple(s, TYPE, rdfType) in graph && rdfType != ALL_DIFFERENT
    requires forall i :: 0 <= i < |values| ==> Triple(s, values[i].property, values[i].operand) in graph && PlainProperty(values[i].property)
    ensures Exact(graph, DescribedProposal(kind, s, rdfType, values))
    ensures Ordinary(graph, DescribedProposal(kind, s, rdfType, values).triples)
  {
    TypeDistinct();
    hide TYPE, DISTINCT_MEMBERS, ALL_DIFFERENT;
    OrdinaryExact(graph, DescribedProposal(kind, s, rdfType, values));
  }

  // Subject rules

  lemma OwnsListExact(graph: set<Triple>, consumed: set<Triple>, s: Node, p: Node, rule: SubjectRule, claim: Proposal)
    requires rule.OwnsList? && PlainProperty(p) && rule.declared != Some(ALL_DIFFERENT)
    requires OwnsListStep(graph, consumed, s, p, rule) == Ok(Some(claim))
    ensures Exact(graph, claim) && Ordinary(graph, claim.triples)
  {
    hide TYPE, FIRST, REST, ALL_DIFFERENT, CellTriples, PlainProperty, Walk, Exact, Ordinary;
    ListAtExact(graph, consumed, s, p);
    var (head, cells) := ListAt(graph, consumed, s, p).value;
    hide ListAt;
    OwnerAssembled(graph, claim, rule.kind, s, rule.declared, p, head, cells);
  }

  lemma OwnerAssembled(graph: set<Triple>, claim: Proposal, kind: Kind, s: Node, declared: Option<Node>, p: Node,
      head: Node, cells: seq<Cell>)
    requires claim.element == ListOwner(kind, s, declared, p, SeqOf(cells), [])
    requires claim.triples == TypeTriples(s, declared) + {Triple(s, p, head)} + CellTriples(cells)
    requires PlainProperty(p) && declared != Some(ALL_DIFFERENT)
    requires TypeTriples(s, declared) <= graph && Triple(s, p, head) in graph && CellTriples(cells) <= graph
    requires SeqOf(cells).AsTriples() == CellTriples(cells) && SeqOf(cells).entries != [] && SeqOf(cells).Name() == head
    requires forall t :: t in CellTriples(cells) ==> t.p == FIRST || t.p == REST
    ensures Exact(graph, claim) && Ordinary(graph, claim.triples)
  {
    hide TYPE, FIRST, REST, ALL_DIFFERENT, CellTriples, PlainProperty, Exact, Ordinary;
    ListsOrdinary(graph, CellTriples(cells));
    PropertyOrdinary(graph, Triple(s, p, head));
    NothingOrdinary(graph);
    if declared.Some? {
      TypeOrdinary(graph, Triple(s, TYPE, declared.value));
    }
    FewFields(s, Field(p, head));
    ListOwnerPrints(kind, s, declared, p, SeqOf(cells), []);
    hide Element.AsTriples, Seq.AsTriples;
    OrdinaryPlus(graph, TypeTriples(s, declared), {Triple(s, p, head)});
    OrdinaryPlus(graph, TypeTriples(s, declared) + {Triple(s, p, head)}, CellTriples(cells));
    OrdinaryExact(graph, claim);
  }

  lemma HasOperandExact(graph: set<Triple>, s: Node, p: Node, rule: SubjectRule, claim: Proposal)
    requires rule.HasOperand? && PlainProperty(p) && rule.rdfType != ALL_DIFFERENT
    requires HasOperandStep(graph, s, p, rule) == Ok(Some(claim))
    ensures Exact(graph, claim) && Ordinary(graph, claim.triples)
  {
    ValueInGraph(graph, s, p);
    hide PlainProperty, TYPE, ALL_DIFFERENT;
    DescribedExact(graph, rule.kind, s, rule.rdfType, [Field(p, Value(graph, s, p).value)]);
  }

  lemma {:induction false} FacetsParsed(graph: set<Triple>, consumed: set<Triple>, cells: seq<Cell>)
    requires ParseFacets(graph, consumed, cells).Ok?
    ensures var facets := ParseFacets(graph, consumed, cells).value;
      && FacetCells(facets) == cells && AnchorTriples(facets) <= graph
      && Ordinary(graph, AnchorTriples(facets))
  {
    hide FIRST, REST, TYPE, ALL_DIFFERENT, DISTINCT_MEMBERS;
    var facets := ParseFacets(graph, consumed, cells).value;
    if cells != [] {
      var rest := ParseFacets(graph, consumed, cells[1..]).value;
      FacetsParsed(graph, consumed, cells[1..]);
      var t := The(FacetCandidates(graph, cells[0].value));
      assert t in FacetCandidates(graph, cells[0].value);
      AnchorOrdinary(graph, t);
      assert facets == [Facet(cells[0].cell, cells[0].value, t.p, t.o)] + rest;
      AnchorsPlus(facets);
      assert facets[1..] == rest;
      assert FacetCells(facets) == [cells[0]] + FacetCells(rest);
    }
  }

  lemma AnchorsPlus(facets: seq<Facet>)
    requires facets != []
    ensures AnchorTriples(facets) ==
      {Triple(facets[0].anchor, facets[0].facet, facets[0].value)} + AnchorTriples(facets[1..])
  {
    forall t | t in AnchorTriples(facets[1..]) ensures t in AnchorTriples(facets) {
      var i :| 0 <= i < |facets[1..]| && t == Triple(facets[1..][i].anchor, facets[1..][i].facet, facets[1..][i].value);
      assert facets[i + 1] == facets[1..][i];
    }
    forall t | t in AnchorTriples(facets)
      ensures t in {Triple(facets[0].anchor, facets[0].facet, facets[0].value)} + AnchorTriples(facets[1..])
    {
      var i :| 0 <= i < |facets| && t == Triple(facets[i].anchor, facets[i].facet, facets[i].value);
      if i > 0 {
        assert facets[1..][i - 1] == facets[i];
      }
    }
  }

  // An anchor has one triple besides those of lists, so it is not the node of
  // an n-ary difference, which has two.
  lemma AnchorOrdinary(graph: set<Triple>, t: Triple)
    requires FacetCandidates(graph, t.s) == {t} && t in graph
    ensures Ordinary(graph, {t})
  {
    TypeDistinct();
    hide FIRST, REST, TYPE, DISTINCT_MEMBERS;
    var typed := Triple(t.s, TYPE, ALL_DIFFERENT);
    assert typed in graph ==> typed in FacetCandidates(graph, t.s);
    forall o | o in Objects(graph, t.s, DISTINCT_MEMBERS) ensures t == Triple(t.s, DISTINCT_MEMBERS, o) {
      assert Triple(t.s, DISTINCT_MEMBERS, o) in FacetCandidates(graph, t.s);
    }
  }

  lemma HasFacetsExact(graph: set<Triple>, consumed: set<Triple>, s: Node, claim: Proposal)
    requires HasFacetsStep(graph, consumed, s) == Ok(Some(claim))
    ensures Exact(graph, claim) && Ordinary(graph, claim.triples)
  {
    hide TYPE, DATATYPE, FIRST, REST, ON_DATATYPE, WITH_RESTRICTIONS, ALL_DIFFERENT, CellTriples, AnchorTriples;
    hide PlainProperty, Walk, Exact, Ordinary;
    ValueInGraph(graph, s, ON_DATATYPE);
    ListAtExact(graph, consumed, s, WITH_RESTRICTIONS);
    var (head, cells) := ListAt(graph, consumed, s, WITH_RESTRICTIONS).value;
    hide ListAt;
    FacetsParsed(graph, consumed, cells);
    var facets := ParseFacets(graph, consumed, cells).value;
    hide ParseFacets;
    FacetsHead(facets, cells, head);
    FacetsAssembled(graph, claim, s, Value(graph, s, ON_DATATYPE).value, head, cells, facets);
  }

  lemma FacetsHead(facets: seq<Facet>, cells: seq<Cell>, head: Node)
    requires FacetCells(facets) == cells && (cells == [] <==> head == NIL) && (cells != [] ==> cells[0].cell == head)
    ensures FacetHead(facets) == head
  {
    assert |facets| == |FacetCells(facets)|;
    if facets != [] {
      assert FacetCells(facets)[0].cell == facets[0].cell;
    }
  }

  lemma FacetsAssembled(graph: set<Triple>, claim: Proposal, s: Node, onDatatype: Node, head: Node,
      cells: seq<Cell>, facets: seq<Facet>)
    requires claim.element == Faceted(DatatypeRestriction, s, onDatatype, facets)
    requires claim.triples == {Triple(s, TYPE, DATATYPE), Triple(s, ON_DATATYPE, onDatatype), Triple(s, WITH_RESTRICTIONS, head)} +
      CellTriples(cells) + AnchorTriples(facets)
    requires FacetHead(facets) == head && FacetCells(facets) == cells
    requires {Triple(s, TYPE, DATATYPE), Triple(s, ON_DATATYPE, onDatatype), Triple(s, WITH_RESTRICTIONS, head)} <= graph
    requires CellTriples(cells) <= graph && AnchorTriples(facets) <= graph
    requires Ordinary(graph, AnchorTriples(facets))
    requires forall t :: t in CellTriples(cells) ==> t.p == FIRST || t.p == REST
    ensures Exact(graph, claim) && Ordinary(graph, claim.triples)
  {
    hide TYPE, DATATYPE, FIRST, REST, ON_DATATYPE, WITH_RESTRICTIONS, ALL_DIFFERENT, CellTriples, AnchorTriples;
    hide FacetHead, FacetCells, PlainProperty, Exact, Ordinary;
    var a, b, c := Triple(s, TYPE, DATATYPE), Triple(s, ON_DATATYPE, onDatatype), Triple(s, WITH_RESTRICTIONS, head);
    TypesDistinct();
    OwnPropertiesPlain();
    TypeOrdinary(graph, a);
    PropertyOrdinary(graph, b);
    PropertyOrdinary(graph, c);
    ListsOrdinary(graph, CellTriples(cells));
    OrdinaryPlus(graph, {a}, {b});
    OrdinaryPlus(graph, {a} + {b}, {c});
    assert {a} + {b} + {c} == {a, b, c};
    OrdinaryPlus(graph, {a, b, c}, CellTriples(cells));
    OrdinaryPlus(graph, {a, b, c} + CellTriples(cells), AnchorTriples(facets));
    assert claim.element.AsTriples() == claim.triples;
    OrdinaryExact(graph, claim);
  }

  lemma RestrictsExact(graph: set<Triple>, consumed: set<Triple>, s: Node, p: Node, form: Form, claim: Proposal)
    requires PlainProperty(p)
    requires RestrictsStep(graph, consumed, s, p, form) == Ok(Some(claim))
    ensures Exact(graph, claim) && Ordinary(graph, claim.triples)
  {
    hide Exact, Ordinary, PlainProperty, TYPE, RESTRICTION, FillerStep, QualifiedStep;
    match form {
      case Filler(_, _, _) => FillerExact(graph, consumed, s, p, form, claim);
      case Qualified(_, _) => QualifiedExact(graph, s, p, form, claim);
      case _ => SimpleExact(graph, consumed, s, p, form, claim);
    }
  }

  lemma SimpleExact(graph: set<Triple>, consumed: set<Triple>, s: Node, p: Node, form: Form, claim: Proposal)
    requires PlainProperty(p) && !form.Filler? && !form.Qualified?
    requires RestrictsStep(graph, consumed, s, p, form) == Ok(Some(claim))
    ensures Exact(graph, claim) && Ordinary(graph, claim.triples)
  {
    hide PropertyFamily, RestrictionKind, PlainProperty, Exact, Ordinary, TYPE, RESTRICTION, ALL_DIFFERENT;
    hide ON_PROPERTY, Objects;
    TypesDistinct();
    OwnPropertiesPlain();
    ValueInGraph(graph, s, ON_PROPERTY);
    ValueInGraph(graph, s, p);
    var property, v := Value(graph, s, ON_PROPERTY).value, Value(graph, s, p).value;
    hide Value;
    var kind := RestrictionKind(graph, property, v, form).value;
    DescribedExact(graph, kind, s, RESTRICTION, [Field(ON_PROPERTY, property), Field(p, v)]);
  }

  lemma QualifiedExact(graph: set<Triple>, s: Node, p: Node, form: Form, claim: Proposal)
    requires form.Qualified? && PlainProperty(p) && Has(graph, s, TYPE, RESTRICTION)
    requires QualifiedStep(graph, s, p, form) == Ok(Some(claim))
    ensures Exact(graph, claim) && Ordinary(graph, claim.triples)
  {
    TypesDistinct();
    var onClass := HasAny(graph, s, ON_CLASS);
    var qualifier := if onClass then ON_CLASS else ON_DATA_RANGE;
    OwnPropertiesPlain();
    hide PlainProperty, TYPE, RESTRICTION, ALL_DIFFERENT, ON_PROPERTY, ON_CLASS, ON_DATA_RANGE;
    ValueInGraph(graph, s, ON_PROPERTY);
    ValueInGraph(graph, s, p);
    ValueInGraph(graph, s, qualifier);
    DescribedExact(graph, if onClass then form.kind else form.dataKind, s, RESTRICTION,
      [Field(ON_PROPERTY, Value(graph, s, ON_PROPERTY).value), Field(p, Value(graph, s, p).value), Field(qualifier, Value(graph, s, qualifier).value)]);
  }

  lemma FillerExact(graph: set<Triple>, consumed: set<Triple>, s: Node, p: Node, form: Form, claim: Proposal)
    requires form.Filler? && PlainProperty(p) && Has(graph, s, TYPE, RESTRICTION)
    requires FillerStep(graph, consumed, s, p, form) == Ok(Some(claim))
    ensures Exact(graph, claim) && Ordinary(graph, claim.triples)
  {
    if HasAny(graph, s, ON_PROPERTIES) {
      FillerOverList(graph, consumed, s, p, form, claim);
    } else {
      FillerOverOne(graph, consumed, s, p, form, claim);
    }
  }

  lemma FillerOverOne(graph: set<Triple>, consumed: set<Triple>, s: Node, p: Node, form: Form, claim: Proposal)
    requires form.Filler? && PlainProperty(p) && Has(graph, s, TYPE, RESTRICTION) && !HasAny(graph, s, ON_PROPERTIES)
    requires FillerStep(graph, consumed, s, p, form) == Ok(Some(claim))
    ensures Exact(graph, claim) && Ordinary(graph, claim.triples)
  {
    hide TYPE, FIRST, REST, RESTRICTION, ON_PROPERTY, ON_PROPERTIES, ALL_DIFFERENT, PlainProperty, CellTriples, Exact;
    hide Ordinary, PropertyFamily, ListAt;
    TypesDistinct();
    OwnPropertiesPlain();
    ValueInGraph(graph, s, p);
    ValueInGraph(graph, s, ON_PROPERTY);
    var property := Value(graph, s, ON_PROPERTY).value;
    var isObject := PropertyFamily(graph, property).value;
    DescribedExact(graph, if isObject then form.kind else form.dataKind, s, RESTRICTION,
      [Field(ON_PROPERTY, property), Field(p, Value(graph, s, p).value)]);
  }

  lemma FillerOverList(graph: set<Triple>, consumed: set<Triple>, s: Node, p: Node, form: Form, claim: Proposal)
    requires form.Filler? && PlainProperty(p) && Has(graph, s, TYPE, RESTRICTION) && HasAny(graph, s, ON_PROPERTIES)
    requires FillerStep(graph, consumed, s, p, form) == Ok(Some(claim))
    ensures Exact(graph, claim)
    ensures Ordinary(graph, claim.triples)
  {
    hide Owl, Objects, TYPE, FIRST, REST, RESTRICTION, ON_PROPERTY, ON_PROPERTIES, ALL_DIFFERENT, PlainProperty;
    hide CellTriples, Exact, Ordinary, FillerStep, ListAt, Value;
    FillerUnpacked(graph, consumed, s, p, form, claim);
    TypesDistinct();
    OwnPropertiesPlain();
    ValueInGraph(graph, s, p);
    ListAtExact(graph, consumed, s, ON_PROPERTIES);
    var (head, cells) := ListAt(graph, consumed, s, ON_PROPERTIES).value;
    FillerList(graph, claim, s, p, form, head, cells, Value(graph, s, p).value);
  }

  lemma FillerUnpacked(graph: set<Triple>, consumed: set<Triple>, s: Node, p: Node, form: Form, claim: Proposal)
    requires form.Filler? && HasAny(graph, s, ON_PROPERTIES)
    requires FillerStep(graph, consumed, s, p, form) == Ok(Some(claim))
    ensures ListAt(graph, consumed, s, ON_PROPERTIES).Ok? && Value(graph, s, p).Some?
    ensures var (head, cells) := ListAt(graph, consumed, s, ON_PROPERTIES).value;
      && claim.element == ListOwner(form.naryKind, s, Some(RESTRICTION), ON_PROPERTIES, SeqOf(cells), [Field(p, Value(graph, s, p).value)])
      && claim.triples == {Triple(s, TYPE, RESTRICTION), Triple(s, ON_PROPERTIES, head), Triple(s, p, Value(graph, s, p).value)} + CellTriples(cells)
  {
    hide TYPE, RESTRICTION, ON_PROPERTY, ON_PROPERTIES, CellTriples, ListAt, Value, HasAny, SeqOf;
  }

  lemma FillerList(graph: set<Triple>, claim: Proposal, s: Node, p: Node, form: Form, head: Node, cells: seq<Cell>,
      filler: Node)
    requires form.Filler? && PlainProperty(p) && PlainProperty(ON_PROPERTIES) && RESTRICTION != ALL_DIFFERENT
    requires claim.element == ListOwner(form.naryKind, s, Some(RESTRICTION), ON_PROPERTIES, SeqOf(cells), [Field(p, filler)])
    requires claim.triples == {Triple(s, TYPE, RESTRICTION), Triple(s, ON_PROPERTIES, head), Triple(s, p, filler)} + CellTriples(cells)
    requires claim.triples <= graph
    requires SeqOf(cells).AsTriples() == CellTriples(cells) && SeqOf(cells).entries != [] && SeqOf(cells).Name() == head
    requires forall t :: t in CellTriples(cells) ==> t.p == FIRST || t.p == REST
    ensures Exact(graph, claim) && Ordinary(graph, claim.triples)
  {
    hide TYPE, FIRST, REST, RESTRICTION, ON_PROPERTIES, ALL_DIFFERENT, PlainProperty, CellTriples, Legacy, Awaited;
    ListsOrdinary(graph, CellTriples(cells));
    PropertyOrdinary(graph, Triple(s, ON_PROPERTIES, head));
    PropertyOrdinary(graph, Triple(s, p, filler));
    TypeOrdinary(graph, Triple(s, TYPE, RESTRICTION));
    FewFields(s, Field(p, filler));
    ListOwnerPrints(form.naryKind, s, Some(RESTRICTION), ON_PROPERTIES, SeqOf(cells), [Field(p, filler)]);
    assert claim.element.AsTriples() == claim.triples by {
      hide Element.AsTriples, Seq.AsTriples;
    }
    OrdinaryExact(graph, claim);
  }

  // Statement rules

  lemma SingleExact(graph: set<Triple>, e: Element, t: Triple)
    requires t in graph && e.AsTriples() == {t} && !Legacy(graph, t)
    ensures Exact(graph, Proposal(e, {t}))
  {
    OrdinaryUnchanged(graph, {t});
  }

  // A list of members. With owl:members nothing is special about the claim.
  lemma OwnsMembersExact(graph: set<Triple>, consumed: set<Triple>, t: Triple, rule: StatementRule, claim: Proposal)
    requires rule.OwnsMembers? && t in graph && t.p == TYPE && (rule.legacy ==> t.o == ALL_DIFFERENT)
    requires OwnsMembersStep(graph, consumed, t, rule) == Ok(Some(claim))
    ensures Exact(graph, claim)
    ensures (!rule.legacy && t.o != ALL_DIFFERENT ==> Ordinary(graph, claim.triples))
    ensures (rule.legacy ==> forall u :: u in graph && u.s == t.s && Legacy(graph, u) ==> u in claim.triples)
    ensures forall u :: u in claim.triples && u.p == TYPE ==> u == t
  {
    hide Owl, PlainProperty, TYPE, FIRST, REST, MEMBERS, DISTINCT_MEMBERS, ALL_DIFFERENT, CellTriples, Walk, Exact;
    hide Ordinary, Legacy, HasAny;
    var p := MembersProperty(graph, t.s, rule.legacy).value;
    MembersPropertyFacts(graph, t.s, rule.legacy);
    ListAtExact(graph, consumed, t.s, p);
    var (head, cells) := ListAt(graph, consumed, t.s, p).value;
    hide ListAt, MembersProperty;
    MembersRenamed(graph, claim, t, p, head, cells);
    MembersClaimed(graph, claim, t, p, head, cells, rule.legacy);
  }

  lemma MembersPropertyFacts(graph: set<Triple>, s: Node, legacy: bool)
    requires MembersProperty(graph, s, legacy).Ok?
    ensures var p := MembersProperty(graph, s, legacy).value;
      && (p == MEMBERS || (p == DISTINCT_MEMBERS && legacy))
      && (p == MEMBERS && legacy ==> !HasAny(graph, s, DISTINCT_MEMBERS) || !HasAny(graph, s, MEMBERS))
      && (legacy && HasAny(graph, s, MEMBERS) ==> p == MEMBERS && !HasAny(graph, s, DISTINCT_MEMBERS))
      && (legacy && !HasAny(graph, s, MEMBERS) ==> p == DISTINCT_MEMBERS)
  {
    hide HasAny;
  }

  lemma MembersClaimed(graph: set<Triple>, claim: Proposal, t: Triple, p: Node, head: Node, cells: seq<Cell>,
      legacy: bool)
    requires t.p == TYPE && claim.triples == {t, Triple(t.s, p, head)} + CellTriples(cells)
    requires Objects(graph, t.s, p) == {head} && (p == MEMBERS || (p == DISTINCT_MEMBERS && legacy))
    requires legacy && HasAny(graph, t.s, MEMBERS) ==> p == MEMBERS && !HasAny(graph, t.s, DISTINCT_MEMBERS)
    requires forall u :: u in CellTriples(cells) ==> u.p == FIRST || u.p == REST
    ensures legacy ==> forall u :: u in graph && u.s == t.s && Legacy(graph, u) ==> u in claim.triples
    ensures forall u :: u in claim.triples && u.p == TYPE ==> u == t
  {
    hide TYPE, FIRST, REST, MEMBERS, DISTINCT_MEMBERS, ALL_DIFFERENT, CellTriples;
    MembersPlain();
    if legacy {
      forall u | u in graph && u.s == t.s && Legacy(graph, u) ensures u in claim.triples {
        assert u.o in Objects(graph, t.s, DISTINCT_MEMBERS);
        assert p == MEMBERS ==> head in Objects(graph, t.s, MEMBERS);
      }
    }
  }

  lemma MembersRenamed(graph: set<Triple>, claim: Proposal, t: Triple, p: Node, head: Node, cells: seq<Cell>)
    requires t.p == TYPE && claim.triples == {t, Triple(t.s, p, head)} + CellTriples(cells) && claim.triples <= graph
    requires claim.element.ListOwner? && claim.element == ListOwner(claim.element.kind, t.s, Some(t.o), MEMBERS, SeqOf(cells), [])
    requires SeqOf(cells).AsTriples() == CellTriples(cells) && SeqOf(cells).entries != [] && SeqOf(cells).Name() == head
    requires forall u :: u in CellTriples(cells) ==> u.p == FIRST || u.p == REST
    requires p == MEMBERS || (p == DISTINCT_MEMBERS && t.o == ALL_DIFFERENT)
    ensures Exact(graph, claim)
    ensures p == MEMBERS && t.o != ALL_DIFFERENT ==> Ordinary(graph, claim.triples)
  {
    hide TYPE, FIRST, REST, MEMBERS, DISTINCT_MEMBERS, ALL_DIFFERENT, CellTriples;
    FewFields(t.s, Field(MEMBERS, head));
    ListOwnerPrints(claim.element.kind, t.s, Some(t.o), MEMBERS, SeqOf(cells), []);
    hide Element.AsTriples, Seq.AsTriples;
    assert claim.element.AsTriples() == {t, Triple(t.s, MEMBERS, head)} + CellTriples(cells);
    MembersOrdinary(graph, t, p, head, cells);
    hide Legacy, Awaited, Renamed;
  }

  lemma MembersOrdinary(graph: set<Triple>, t: Triple, p: Node, head: Node, cells: seq<Cell>)
    requires t.p == TYPE && t in graph
    requires forall u :: u in CellTriples(cells) ==> u.p == FIRST || u.p == REST
    requires p == MEMBERS || (p == DISTINCT_MEMBERS && t.o == ALL_DIFFERENT)
    ensures RenamedAll(graph, {t, Triple(t.s, p, head)} + CellTriples(cells)) == {t, Triple(t.s, MEMBERS, head)} + CellTriples(cells)
    ensures p == MEMBERS && t.o != ALL_DIFFERENT ==> Ordinary(graph, {t, Triple(t.s, p, head)} + CellTriples(cells))
  {
    hide TYPE, FIRST, REST, MEMBERS, DISTINCT_MEMBERS, ALL_DIFFERENT, CellTriples;
    var owner := Triple(t.s, p, head);
    ListsOrdinary(graph, CellTriples(cells));
    MembersPlain();
    assert Renamed(graph, t) == t;
    assert Renamed(graph, owner) == Triple(t.s, MEMBERS, head);
    if p == MEMBERS && t.o != ALL_DIFFERENT {
      PropertyOrdinary(graph, owner);
      TypeOrdinary(graph, t);
      OrdinaryPlus(graph, {t}, {owner});
      assert {t} + {owner} == {t, owner};
      OrdinaryPlus(graph, {t, owner}, CellTriples(cells));
    }
    OrdinaryUnchanged(graph, CellTriples(cells));
    TwoRenamed(graph, t, owner, t, Triple(t.s, MEMBERS, head));
    RenamedParts(graph, {t, owner} + CellTriples(cells), {t, owner}, CellTriples(cells));
  }

  lemma MembersPlain()
    ensures PlainProperty(MEMBERS) && PlainProperty(FIRST) && PlainProperty(REST) && TYPE != DISTINCT_MEMBERS
  {
    TypeDistinct();
    OwnPropertiesPlain();
  }

  lemma TwoRenamed(graph: set<Triple>, a: Triple, b: Triple, a': Triple, b': Triple)
    requires Renamed(graph, a) == a' && Renamed(graph, b) == b'
    ensures RenamedAll(graph, {a, b}) == {a', b'}
  {
    hide Renamed, MEMBERS;
  }

  lemma RenamedParts(graph: set<Triple>, all: set<Triple>, a: set<Triple>, b: set<Triple>)
    requires all == a + b
    ensures RenamedAll(graph, all) == RenamedAll(graph, a) + RenamedAll(graph, b)
  {
    hide Renamed;
  }
}
