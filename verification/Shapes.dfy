// What a graph has to hold for a pass to make a given element of it: for every
// shape the element's own triples, and nothing else in their places.
module Shapes {
  import opened Rdf
  import opened RdfLists
  import opened Kinds
  import opened Elements
  import opened Passes
  import opened Claims
  import opened Conformance

  lemma ValueIs(graph: set<Triple>, s: Node, p: Node, o: Node)
    ensures Value(graph, s, p) == Some(o) <==> Objects(graph, s, p) == {o}
  {
    if Objects(graph, s, p) == {o} {
      assert |Objects(graph, s, p)| == 1;
    }
  }

  // The subject has the list as its only value, and the graph holds the list
  // for itself.
  ghost predicate HoldsList(graph: set<Triple>, consumed: set<Triple>, s: Node, p: Node, list: Seq)
    requires list.Valid()
  {
    Objects(graph, s, p) == {list.Name()} && Owns(graph, consumed, list)
  }

  lemma ListAtIff(graph: set<Triple>, consumed: set<Triple>, s: Node, p: Node, list: Seq)
    requires list.Valid()
    ensures HoldsList(graph, consumed, s, p, list) <==>
      ListAt(graph, consumed, s, p).Ok? && SeqOf(ListAt(graph, consumed, s, p).value.1) == list
  {
    ValueIs(graph, s, p, list.Name());
    WalkAcceptsOwned(graph, consumed, list);
    if ListAt(graph, consumed, s, p).Ok? {
      ListAtExact(graph, consumed, s, p);
    }
    hide Owns, Walk, CellTriples, Value;
  }

  lemma SeqOfInjective(a: seq<Cell>, b: seq<Cell>)
    requires SeqOf(a) == SeqOf(b)
    ensures a == b
  {
    assert |SeqOf(a).entries| == |a| + 1 && |SeqOf(b).entries| == |b| + 1;
    forall i | 0 <= i < |a| ensures a[i] == b[i] {
      assert SeqOf(a).entries[i] == Entry(a[i].cell, Some(a[i].value));
      assert SeqOf(b).entries[i] == Entry(b[i].cell, Some(b[i].value));
    }
  }

  // What the cells of a list that is held are.
  lemma HeldList(graph: set<Triple>, consumed: set<Triple>, s: Node, p: Node, list: Seq, members: Test, minimum: nat)
    requires Operate(list, members, minimum) && HoldsList(graph, consumed, s, p, list)
    ensures ListAt(graph, consumed, s, p).Ok?
    ensures var (head, cells) := ListAt(graph, consumed, s, p).value;
      && head == list.Name() && SeqOf(cells) == list && CellTriples(cells) == list.AsTriples() && |cells| >= minimum
      && forall i :: 0 <= i < |cells| ==> Meets(cells[i].value, members)
  {
    hide Meets;
    ListAtIff(graph, consumed, s, p, list);
    ListAtExact(graph, consumed, s, p);
    var (head, cells) := ListAt(graph, consumed, s, p).value;
    hide ListAt;
    assert |list.entries| == |cells| + 1;
    forall i | 0 <= i < |cells| ensures Meets(cells[i].value, members) {
      assert list.entries[i] == Entry(cells[i].cell, Some(cells[i].value));
    }
  }

  // The proposal that claims just what the element prints.
  function Whole(e: Element): Proposal {
    Proposal(e, e.AsTriples())
  }

  // A step makes the element, and claims just what it prints.
  predicate Makes(step: Outcome, e: Element) {
    step == Ok(Some(Whole(e)))
  }

  lemma OwnerTriples(kind: Kind, s: Node, declared: Option<Node>, p: Node, list: Seq, values: seq<Field>)
    requires list.Valid()
    ensures ListOwner(kind, s, declared, p, list, values).AsTriples() ==
      TypeTriples(s, declared) + {Triple(s, p, list.Name())} + FieldTriples(s, values) + list.AsTriples()
  {
    ListOwnerPrints(kind, s, declared, p, list, values);
    hide Element.AsTriples, Seq.AsTriples, TypeTriples, FieldTriples;
  }

  // An operand list.
  lemma OwnsListIff(graph: set<Triple>, consumed: set<Triple>, s: Node, p: Node, rule: SubjectRule, list: Seq)
    requires rule.OwnsList? && Operate(list, if rule.literals then LiteralNode else Resource, rule.minimum)
    ensures Makes(OwnsListStep(graph, consumed, s, p, rule), ListOwner(rule.kind, s, rule.declared, p, list, [])) <==>
      (rule.declared.Some? ==> Has(graph, s, TYPE, rule.declared.value)) && HoldsList(graph, consumed, s, p, list)
  {
    hide TYPE, CellTriples, Meets;
    OwnerTriples(rule.kind, s, rule.declared, p, list, []);
    FewFields(s, Field(p, p));
    ListAtIff(graph, consumed, s, p, list);
    if HoldsList(graph, consumed, s, p, list) {
      HeldList(graph, consumed, s, p, list, if rule.literals then LiteralNode else Resource, rule.minimum);
      MeetsAll(ListAt(graph, consumed, s, p).value.1, rule.literals);
    }
    hide Element.AsTriples, Seq.AsTriples, ListAt, HoldsList, Has, SeqOf, Operate;
  }

  lemma MeetsAll(cells: seq<Cell>, literals: bool)
    requires forall i :: 0 <= i < |cells| ==> Meets(cells[i].value, if literals then LiteralNode else Resource)
    ensures if literals then AllLiterals(cells) else AllResources(cells)
  {
  }

  // One operand.
  lemma HasOperandIff(graph: set<Triple>, s: Node, p: Node, rule: SubjectRule, o: Node)
    requires rule.HasOperand? && IsResource(o)
    ensures Makes(HasOperandStep(graph, s, p, rule), Described(rule.kind, s, rule.rdfType, [Field(p, o)])) <==>
      Has(graph, s, TYPE, rule.rdfType) && Objects(graph, s, p) == {o}
  {
    hide TYPE, Has;
    ValueIs(graph, s, p, o);
    hide Value;
    var v := Value(graph, s, p);
    if v.Some? && [Field(p, v.value)] == [Field(p, o)] {
      assert [Field(p, v.value)][0] == [Field(p, o)][0];
    }
  }

  // Restrictions on one property

  function Restricted(kind: Kind, s: Node, property: Node, values: seq<Field>): Element {
    Described(kind, s, RESTRICTION, [Field(ON_PROPERTY, property)] + values)
  }

  lemma RestrictedMade(kind: Kind, s: Node, property: Node, a: Field, b: Field)
    ensures Whole(Restricted(kind, s, property, [a])) ==
      DescribedProposal(kind, s, RESTRICTION, [Field(ON_PROPERTY, property), a])
    ensures Whole(Restricted(kind, s, property, [a, b])) ==
      DescribedProposal(kind, s, RESTRICTION, [Field(ON_PROPERTY, property), a, b])
  {
    assert [Field(ON_PROPERTY, property)] + [a] == [Field(ON_PROPERTY, property), a];
    assert [Field(ON_PROPERTY, property)] + [a, b] == [Field(ON_PROPERTY, property), a, b];
  }

  lemma DescribedSame(k: Kind, s: Node, rdfType: Node, values: seq<Field>, k': Kind, values': seq<Field>)
    ensures DescribedProposal(k, s, rdfType, values) == DescribedProposal(k', s, rdfType, values') <==> k == k' && values == values'
  {
  }

  lemma PairOfFields(a: Field, b: Field, c: Field, d: Field)
    ensures [a, b] == [c, d] <==> a == c && b == d
  {
    assert [a, b] == [c, d] ==> [a, b][0] == [c, d][0] && [a, b][1] == [c, d][1];
  }

  // A restriction to a value, to the thing itself or by an unqualified count.
  lemma SimpleIff(graph: set<Triple>, consumed: set<Triple>, s: Node, p: Node, form: Form, kind: Kind, property: Node, v: Node)
    requires !form.Filler? && !form.Qualified? && property.IRI?
    ensures Makes(RestrictsStep(graph, consumed, s, p, form), Restricted(kind, s, property, [Field(p, v)])) <==>
      && Has(graph, s, TYPE, RESTRICTION) && Objects(graph, s, ON_PROPERTY) == {property} && Objects(graph, s, p) == {v}
      && RestrictionKind(graph, property, v, form) == Ok(kind)
      && (form.Unqualified? ==> Triple(s, TYPE, RESTRICTION) !in consumed)
  {
    hide TYPE, RESTRICTION, ON_PROPERTY, Has, FillerStep, QualifiedStep, RestrictionKind, Value, Whole, Restricted;
    hide DescribedProposal;
    ValueIs(graph, s, ON_PROPERTY, property);
    ValueIs(graph, s, p, v);
    var a, b := Value(graph, s, ON_PROPERTY), Value(graph, s, p);
    RestrictedMade(kind, s, property, Field(p, v), Field(p, v));
    if a.Some? && b.Some? {
      PairOfFields(Field(ON_PROPERTY, a.value), Field(p, b.value), Field(ON_PROPERTY, property), Field(p, v));
      var made := RestrictionKind(graph, a.value, b.value, form);
      if made.Ok? {
        DescribedSame(made.value, s, RESTRICTION, [Field(ON_PROPERTY, a.value), Field(p, b.value)], kind,
          [Field(ON_PROPERTY, property), Field(p, v)]);
      }
    }
  }

  // A qualified count: over a class or over a data range, not both.
  lemma QualifiedIff(graph: set<Triple>, consumed: set<Triple>, s: Node, p: Node, form: Form, data: bool,
      property: Node, n: Node, filler: Node)
    requires form.Qualified? && property.IRI? && IsNonNegativeInteger(n) && IsResource(filler)
    ensures var kind, qualifier := if data then form.dataKind else form.kind, if data then ON_DATA_RANGE else ON_CLASS;
      Makes(RestrictsStep(graph, consumed, s, p, form), Restricted(kind, s, property, [Field(p, n), Field(qualifier, filler)])) <==>
      && Has(graph, s, TYPE, RESTRICTION) && Objects(graph, s, ON_PROPERTY) == {property} && Objects(graph, s, p) == {n}
      && Objects(graph, s, qualifier) == {filler} && !HasAny(graph, s, if data then ON_CLASS else ON_DATA_RANGE)
  {
    QualifiersApart();
    hide TYPE, RESTRICTION, ON_PROPERTY, ON_CLASS, ON_DATA_RANGE, Has, FillerStep, IsNonNegativeInteger, Value, Whole;
    hide Restricted, DescribedProposal;
    var kind, qualifier := if data then form.dataKind else form.kind, if data then ON_DATA_RANGE else ON_CLASS;
    var used := if HasAny(graph, s, ON_CLASS) then ON_CLASS else ON_DATA_RANGE;
    ValueIs(graph, s, ON_PROPERTY, property);
    ValueIs(graph, s, p, n);
    ValueIs(graph, s, qualifier, filler);
    RestrictedMade(kind, s, property, Field(p, n), Field(qualifier, filler));
    assert Objects(graph, s, qualifier) == {filler} ==> HasAny(graph, s, qualifier);
    hide HasAny;
    var a, b, c := Value(graph, s, ON_PROPERTY), Value(graph, s, p), Value(graph, s, used);
    if a.Some? && b.Some? && c.Some? {
      TripleOfFields(Field(ON_PROPERTY, a.value), Field(p, b.value), Field(used, c.value),
        Field(ON_PROPERTY, property), Field(p, n), Field(qualifier, filler));
      DescribedSame(if used == ON_CLASS then form.kind else form.dataKind, s, RESTRICTION,
        [Field(ON_PROPERTY, a.value), Field(p, b.value), Field(used, c.value)], kind,
        [Field(ON_PROPERTY, property), Field(p, n), Field(qualifier, filler)]);
    }
  }

  lemma TripleOfFields(a: Field, b: Field, c: Field, d: Field, e: Field, f: Field)
    ensures [a, b, c] == [d, e, f] <==> a == d && b == e && c == f
  {
    assert [a, b, c] == [d, e, f] ==>
      [a, b, c][0] == [d, e, f][0] && [a, b, c][1] == [d, e, f][1] && [a, b, c][2] == [d, e, f][2];
  }

  lemma QualifiersApart()
    ensures ON_CLASS != ON_DATA_RANGE && ON_PROPERTY != ON_PROPERTIES && RESTRICTION != DATATYPE
  {
    hide Owl, Rdfs, MeaningOf;
    Meanings();
  }

  // A filler over one property.
  lemma FillerIff(graph: set<Triple>, consumed: set<Triple>, s: Node, p: Node, form: Form, data: bool, property: Node,
      filler: Node)
    requires form.Filler? && form.kind != form.dataKind && property.IRI? && IsResource(filler)
    ensures var kind := if data then form.dataKind else form.kind;
      Makes(RestrictsStep(graph, consumed, s, p, form), Restricted(kind, s, property, [Field(p, filler)])) <==>
      && Has(graph, s, TYPE, RESTRICTION) && Objects(graph, s, ON_PROPERTY) == {property} && Objects(graph, s, p) == {filler}
      && !HasAny(graph, s, ON_PROPERTIES) && PropertyFamily(graph, property) == Ok(!data)
  {
    hide TYPE, RESTRICTION, ON_PROPERTY, ON_PROPERTIES, Has, QualifiedStep, ListAt, CellTriples, PropertyFamily;
    hide Value, Restricted, DescribedProposal;
    ValueIs(graph, s, ON_PROPERTY, property);
    ValueIs(graph, s, p, filler);
    assert Objects(graph, s, ON_PROPERTY) == {property} ==> HasAny(graph, s, ON_PROPERTY);
    hide HasAny;
    var kind := if data then form.dataKind else form.kind;
    RestrictedMade(kind, s, property, Field(p, filler), Field(p, filler));
    var a, b := Value(graph, s, ON_PROPERTY), Value(graph, s, p);
    if a.Some? && b.Some? {
      PairOfFields(Field(ON_PROPERTY, a.value), Field(p, b.value), Field(ON_PROPERTY, property), Field(p, filler));
      forall made: Kind ensures
        DescribedProposal(made, s, RESTRICTION, [Field(ON_PROPERTY, a.value), Field(p, b.value)]) ==
        DescribedProposal(kind, s, RESTRICTION, [Field(ON_PROPERTY, property), Field(p, filler)]) <==>
        made == kind && a.value == property && b.value == filler
      {
        DescribedSame(made, s, RESTRICTION, [Field(ON_PROPERTY, a.value), Field(p, b.value)], kind,
          [Field(ON_PROPERTY, property), Field(p, filler)]);
      }
    }
    NotOverList(graph, consumed, s, p, form, kind, property, filler);
    hide Whole;
  }

  // Over a list of properties a different shape is made.
  lemma NotOverList(graph: set<Triple>, consumed: set<Triple>, s: Node, p: Node, form: Form, kind: Kind, property: Node, filler: Node)
    requires form.Filler?
    ensures HasAny(graph, s, ON_PROPERTIES) ==>
      !Makes(FillerStep(graph, consumed, s, p, form), Restricted(kind, s, property, [Field(p, filler)]))
  {
    hide TYPE, RESTRICTION, ON_PROPERTY, ON_PROPERTIES, ListAt, CellTriples, PropertyFamily, Value, HasAny;
  }

  lemma FillerListFacts(graph: set<Triple>, consumed: set<Triple>, s: Node, p: Node, list: Seq, filler: Node)
    requires Operate(list, Iri, 2) && IsResource(filler)
    ensures HoldsList(graph, consumed, s, ON_PROPERTIES, list) <==>
      ListAt(graph, consumed, s, ON_PROPERTIES).Ok? && SeqOf(ListAt(graph, consumed, s, ON_PROPERTIES).value.1) == list
    ensures HoldsList(graph, consumed, s, ON_PROPERTIES, list) ==> HasAny(graph, s, ON_PROPERTIES)
    ensures HoldsList(graph, consumed, s, ON_PROPERTIES, list) ==>
      && ListAt(graph, consumed, s, ON_PROPERTIES).Ok?
      && var (head, cells) := ListAt(graph, consumed, s, ON_PROPERTIES).value;
        head == list.Name() && CellTriples(cells) == list.AsTriples() && |cells| >= 2 && AllIris(cells)
    ensures Value(graph, s, p) == Some(filler) <==> Objects(graph, s, p) == {filler}
  {
    hide ON_PROPERTIES, CellTriples, Meets;
    ListAtIff(graph, consumed, s, ON_PROPERTIES, list);
    ValueIs(graph, s, p, filler);
    if HoldsList(graph, consumed, s, ON_PROPERTIES, list) {
      HeldList(graph, consumed, s, ON_PROPERTIES, list, Iri, 2);
      IriCells(ListAt(graph, consumed, s, ON_PROPERTIES).value.1);
    }
    hide Seq.AsTriples, ListAt, SeqOf, Operate, Value;
  }

  function OverList(kind: Kind, s: Node, list: Seq, p: Node, filler: Node): Element {
    ListOwner(kind, s, Some(RESTRICTION), ON_PROPERTIES, list, [Field(p, filler)])
  }

  // A filler over a list of properties.
  lemma FillerListIff(graph: set<Triple>, consumed: set<Triple>, s: Node, p: Node, form: Form, list: Seq, filler: Node)
    requires form.Filler? && Operate(list, Iri, 2) && IsResource(filler)
    ensures Makes(RestrictsStep(graph, consumed, s, p, form), OverList(form.naryKind, s, list, p, filler)) <==>
      && Has(graph, s, TYPE, RESTRICTION) && HoldsList(graph, consumed, s, ON_PROPERTIES, list) && Objects(graph, s, p) == {filler}
      && !HasAny(graph, s, ON_PROPERTY)
  {
    assert list.Valid();
    hide TYPE, RESTRICTION, ON_PROPERTY, ON_PROPERTIES, FillerStep, QualifiedStep, HoldsList, Has, Operate, HasAny;
    hide Objects, Makes, OverList;
    if HoldsList(graph, consumed, s, ON_PROPERTIES, list) && Objects(graph, s, p) == {filler} && !HasAny(graph, s, ON_PROPERTY) {
      FillerListMade(graph, consumed, s, p, form, list, filler);
    }
    if Makes(FillerStep(graph, consumed, s, p, form), OverList(form.naryKind, s, list, p, filler)) {
      FillerListOnly(graph, consumed, s, p, form, list, filler);
    }
    NothingMade(OverList(form.naryKind, s, list, p, filler));
  }

  lemma NothingMade(e: Element)
    ensures !Makes(Ok(None), e)
  {
  }

  lemma FillerListMade(graph: set<Triple>, consumed: set<Triple>, s: Node, p: Node, form: Form, list: Seq, filler: Node)
    requires form.Filler? && Operate(list, Iri, 2) && IsResource(filler)
    requires HoldsList(graph, consumed, s, ON_PROPERTIES, list) && Objects(graph, s, p) == {filler} && !HasAny(graph, s, ON_PROPERTY)
    ensures Makes(FillerStep(graph, consumed, s, p, form), OverList(form.naryKind, s, list, p, filler))
  {
    OverListTriples(form.naryKind, s, list, p, filler);
    hide TYPE, RESTRICTION, ON_PROPERTY, ON_PROPERTIES, CellTriples, PropertyFamily, Element.AsTriples, Seq.AsTriples;
    hide ListAt;
    FillerListFacts(graph, consumed, s, p, list, filler);
    hide HoldsList, SeqOf, Operate, Value, HasAny, AllIris, FieldTriples, TypeTriples;
  }

  lemma OverListTriples(kind: Kind, s: Node, list: Seq, p: Node, filler: Node)
    requires list.Valid()
    ensures OverList(kind, s, list, p, filler).AsTriples() ==
      {Triple(s, TYPE, RESTRICTION), Triple(s, ON_PROPERTIES, list.Name()), Triple(s, p, filler)} + list.AsTriples()
  {
    hide TYPE, RESTRICTION, ON_PROPERTIES;
    OwnerTriples(kind, s, Some(RESTRICTION), ON_PROPERTIES, list, [Field(p, filler)]);
    hide Element.AsTriples, Seq.AsTriples;
    FewFields(s, Field(p, filler));
  }

  lemma FillerListOnly(graph: set<Triple>, consumed: set<Triple>, s: Node, p: Node, form: Form, list: Seq, filler: Node)
    requires form.Filler? && Operate(list, Iri, 2) && IsResource(filler)
    requires Makes(FillerStep(graph, consumed, s, p, form), OverList(form.naryKind, s, list, p, filler))
    ensures HoldsList(graph, consumed, s, ON_PROPERTIES, list) && Objects(graph, s, p) == {filler} && !HasAny(graph, s, ON_PROPERTY)
  {
    hide TYPE, RESTRICTION, ON_PROPERTY, ON_PROPERTIES, CellTriples, PropertyFamily, Element.AsTriples, Seq.AsTriples;
    hide ListAt, HoldsList, SeqOf, Operate, Value, HasAny, AllIris;
    assert HasAny(graph, s, ON_PROPERTIES) && !HasAny(graph, s, ON_PROPERTY);
    FillerUnpacked(graph, consumed, s, p, form, Whole(OverList(form.naryKind, s, list, p, filler)));
    FillerListFacts(graph, consumed, s, p, list, filler);
    assert [Field(p, Value(graph, s, p).value)][0] == [Field(p, filler)][0];
  }

  lemma IriCells(cells: seq<Cell>)
    requires forall i :: 0 <= i < |cells| ==> Meets(cells[i].value, Iri)
    ensures AllIris(cells)
  {
  }

  // Facets

  // The anchor is there for the row alone.
  ghost predicate HoldsRow(graph: set<Triple>, consumed: set<Triple>, f: Facet) {
    var t := Triple(f.anchor, f.facet, f.value);
    IsResource(f.anchor) && f.facet.IRI? && FacetCandidates(graph, f.anchor) == {t} && t !in consumed
  }

  lemma FirstRow(graph: set<Triple>, consumed: set<Triple>, cells: seq<Cell>, f: Facet, rest: seq<Facet>)
    requires cells != [] && cells[0] == Cell(f.cell, f.anchor)
    ensures ParseFacets(graph, consumed, cells) == Ok([f] + rest) <==>
      HoldsRow(graph, consumed, f) && ParseFacets(graph, consumed, cells[1..]) == Ok(rest)
  {
    hide FacetCandidates;
    var found := FacetCandidates(graph, f.anchor);
    var t := Triple(f.anchor, f.facet, f.value);
    if found == {t} {
      assert |found| == 1;
    }
    if |found| == 1 {
      assert The(found) in FacetCandidates(graph, f.anchor);
      TheAnchor(graph, f.anchor);
      if The(found) !in consumed && The(found).p.IRI? && ParseFacets(graph, consumed, cells[1..]).Ok? {
        var more := ParseFacets(graph, consumed, cells[1..]).value;
        var g := Facet(f.cell, f.anchor, The(found).p, The(found).o);
        assert [g] + more == [f] + rest <==> g == f && more == rest by {
          assert ([g] + more)[0] == g && ([g] + more)[1..] == more && ([f] + rest)[0] == f && ([f] + rest)[1..] == rest;
        }
      }
    }
  }

  lemma TheAnchor(graph: set<Triple>, anchor: Node)
    requires |FacetCandidates(graph, anchor)| == 1
    ensures The(FacetCandidates(graph, anchor)).s == anchor
  {
    assert The(FacetCandidates(graph, anchor)) in FacetCandidates(graph, anchor);
  }

  lemma {:induction false} ParseFacetsIff(graph: set<Triple>, consumed: set<Triple>, facets: seq<Facet>)
    ensures ParseFacets(graph, consumed, FacetCells(facets)) == Ok(facets) <==>
      forall i :: 0 <= i < |facets| ==> HoldsRow(graph, consumed, facets[i])
    decreases |facets|
  {
    hide HoldsRow;
    var cells := FacetCells(facets);
    if facets != [] {
      var rest := facets[1..];
      assert cells[1..] == FacetCells(rest) && facets == [facets[0]] + rest;
      FirstRow(graph, consumed, cells, facets[0], rest);
      ParseFacetsIff(graph, consumed, rest);
      hide ParseFacets;
      assert forall i :: 0 <= i < |rest| ==> rest[i] == facets[i + 1];
      assert forall i :: 1 <= i < |facets| ==> facets[i] == rest[i - 1];
    }
  }

  // A datatype restriction.
  lemma HasFacetsIff(graph: set<Triple>, consumed: set<Triple>, s: Node, onDatatype: Node, facets: seq<Facet>)
    requires SeqOf(FacetCells(facets)).Valid() && onDatatype.IRI?
    ensures Makes(HasFacetsStep(graph, consumed, s), Faceted(DatatypeRestriction, s, onDatatype, facets)) <==>
      && Has(graph, s, TYPE, DATATYPE) && Objects(graph, s, ON_DATATYPE) == {onDatatype}
      && HoldsList(graph, consumed, s, WITH_RESTRICTIONS, SeqOf(FacetCells(facets)))
      && forall i :: 0 <= i < |facets| ==> HoldsRow(graph, consumed, facets[i])
  {
    hide TYPE, DATATYPE, ON_DATATYPE, WITH_RESTRICTIONS, Has, HoldsRow, HoldsList, SeqOf, CellTriples, AnchorTriples;
    hide Value, FacetHead, FacetCells, ParseFacets, Seq.Name;
    var list, cells := SeqOf(FacetCells(facets)), FacetCells(facets);
    ValueIs(graph, s, ON_DATATYPE, onDatatype);
    ListAtIff(graph, consumed, s, WITH_RESTRICTIONS, list);
    ParseFacetsIff(graph, consumed, facets);
    HeadOfRows(facets);
    if ListAt(graph, consumed, s, WITH_RESTRICTIONS).Ok? {
      ListAtExact(graph, consumed, s, WITH_RESTRICTIONS);
      var (head, found) := ListAt(graph, consumed, s, WITH_RESTRICTIONS).value;
      hide ListAt;
      if SeqOf(found) == list {
        SeqOfInjective(found, cells);
      }
      if ParseFacets(graph, consumed, found).Ok? {
        FacetsParsed(graph, consumed, found);
        hide FacetTriples;
        assert ParseFacets(graph, consumed, found) == Ok(facets) ==> found == cells;
      }
      FacetedMade(graph, consumed, s, onDatatype, facets, head, found);
    }
  }

  lemma FacetedMade(graph: set<Triple>, consumed: set<Triple>, s: Node, onDatatype: Node, facets: seq<Facet>, head: Node, found: seq<Cell>)
    requires onDatatype.IRI? && ListAt(graph, consumed, s, WITH_RESTRICTIONS) == Ok((head, found))
    ensures Makes(HasFacetsStep(graph, consumed, s), Faceted(DatatypeRestriction, s, onDatatype, facets)) ==>
      && Has(graph, s, TYPE, DATATYPE) && Value(graph, s, ON_DATATYPE) == Some(onDatatype)
      && ParseFacets(graph, consumed, found) == Ok(facets)
    ensures head == FacetHead(facets) && found == FacetCells(facets) ==>
      (Makes(HasFacetsStep(graph, consumed, s), Faceted(DatatypeRestriction, s, onDatatype, facets)) <==>
       && Has(graph, s, TYPE, DATATYPE) && Value(graph, s, ON_DATATYPE) == Some(onDatatype)
       && ParseFacets(graph, consumed, found) == Ok(facets))
  {
    hide TYPE, DATATYPE, ON_DATATYPE, WITH_RESTRICTIONS, Has, ListAt, CellTriples, AnchorTriples, Value, FacetHead;
    hide FacetCells, ParseFacets;
    var e := Faceted(DatatypeRestriction, s, onDatatype, facets);
    assert e.AsTriples() == {Triple(s, TYPE, DATATYPE), Triple(s, ON_DATATYPE, onDatatype), Triple(s, WITH_RESTRICTIONS, FacetHead(facets))} +
      CellTriples(FacetCells(facets)) + AnchorTriples(facets);
  }

  lemma HeadOfRows(facets: seq<Facet>)
    requires SeqOf(FacetCells(facets)).Valid()
    ensures FacetHead(facets) == SeqOf(FacetCells(facets)).Name()
  {
  }

  // Members

  function OfMembers(kind: Kind, t: Triple, list: Seq): Element {
    ListOwner(kind, t.s, Some(t.o), MEMBERS, list, [])
  }

  // A list of members, under owl:members. Under the older property the element
  // does not print what it claims.
  lemma MembersIff(graph: set<Triple>, consumed: set<Triple>, t: Triple, rule: StatementRule, cells: seq<Cell>)
    requires rule.OwnsMembers? && t.p == TYPE && Operate(SeqOf(cells), Resource, 3)
    ensures var kind := if AllDataProperties(graph, cells) then rule.dataKind else rule.kind;
      Makes(OwnsMembersStep(graph, consumed, t, rule), OfMembers(kind, t, SeqOf(cells))) <==>
      && t !in consumed && HoldsList(graph, consumed, t.s, MEMBERS, SeqOf(cells))
      && (rule.legacy ==> !HasAny(graph, t.s, DISTINCT_MEMBERS))
  {
    var list, kind := SeqOf(cells), if AllDataProperties(graph, cells) then rule.dataKind else rule.kind;
    assert list.Valid();
    hide TYPE, MEMBERS, DISTINCT_MEMBERS, OwnsMembersStep, HoldsList, SeqOf, Operate, AllDataProperties, HasAny;
    hide Makes, OfMembers;
    if t !in consumed && HoldsList(graph, consumed, t.s, MEMBERS, list) && (rule.legacy ==> !HasAny(graph, t.s, DISTINCT_MEMBERS)) {
      MembersMade(graph, consumed, t, rule, cells);
    }
    if Makes(OwnsMembersStep(graph, consumed, t, rule), OfMembers(kind, t, list)) {
      MembersOnly(graph, consumed, t, rule, cells, kind);
    }
  }

  lemma MembersPrint(kind: Kind, t: Triple, cells: seq<Cell>)
    requires t.p == TYPE && SeqOf(cells).Valid()
    ensures OfMembers(kind, t, SeqOf(cells)).AsTriples() == {t, Triple(t.s, MEMBERS, SeqOf(cells).Name())} + CellTriples(cells)
  {
    hide TYPE, MEMBERS;
    OwnerTriples(kind, t.s, Some(t.o), MEMBERS, SeqOf(cells), []);
    SeqOfTriples(cells);
    FewFields(t.s, Field(MEMBERS, MEMBERS));
    hide Element.AsTriples, Seq.AsTriples, CellTriples, SeqOf;
    assert t == Triple(t.s, TYPE, t.o);
  }

  lemma MembersMade(graph: set<Triple>, consumed: set<Triple>, t: Triple, rule: StatementRule, cells: seq<Cell>)
    requires rule.OwnsMembers? && t.p == TYPE && t !in consumed && Operate(SeqOf(cells), Resource, 3)
    requires HoldsList(graph, consumed, t.s, MEMBERS, SeqOf(cells)) && (rule.legacy ==> !HasAny(graph, t.s, DISTINCT_MEMBERS))
    ensures Makes(OwnsMembersStep(graph, consumed, t, rule),
              OfMembers(if AllDataProperties(graph, cells) then rule.dataKind else rule.kind, t, SeqOf(cells)))
  {
    hide TYPE, MEMBERS, DISTINCT_MEMBERS, CellTriples, AllDataProperties;
    MembersPrint(if AllDataProperties(graph, cells) then rule.dataKind else rule.kind, t, cells);
    HeldList(graph, consumed, t.s, MEMBERS, SeqOf(cells), Resource, 3);
    SeqOfInjective(ListAt(graph, consumed, t.s, MEMBERS).value.1, cells);
    MeetsAll(cells, false);
    assert HasAny(graph, t.s, MEMBERS);
    hide Element.AsTriples, Seq.AsTriples, SeqOf, HoldsList, ListAt, HasAny, Operate;
  }

  // What the element prints tells under which property its list stood.
  lemma UnderMembers(t: Triple, p: Node, head: Node, triples: set<Triple>)
    requires t.p == TYPE && (p == MEMBERS || p == DISTINCT_MEMBERS) && Triple(t.s, p, head) in {t, Triple(t.s, MEMBERS, head)} + triples
    requires forall u :: u in triples ==> u.p == FIRST || u.p == REST
    ensures p == MEMBERS
  {
    hide TYPE, MEMBERS, DISTINCT_MEMBERS, FIRST, REST;
    MembersNotOlder();
  }

  lemma MembersOnly(graph: set<Triple>, consumed: set<Triple>, t: Triple, rule: StatementRule, cells: seq<Cell>, kind: Kind)
    requires rule.OwnsMembers? && t.p == TYPE && SeqOf(cells).Valid()
    requires Makes(OwnsMembersStep(graph, consumed, t, rule), OfMembers(kind, t, SeqOf(cells)))
    ensures t !in consumed && HoldsList(graph, consumed, t.s, MEMBERS, SeqOf(cells))
    ensures rule.legacy ==> !HasAny(graph, t.s, DISTINCT_MEMBERS)
  {
    hide TYPE, MEMBERS, DISTINCT_MEMBERS, FIRST, REST, CellTriples, AllDataProperties, Element.AsTriples;
    hide Seq.AsTriples, ListAt, MembersProperty, SeqOf, HoldsList, HasAny;
    MembersPrint(kind, t, cells);
    var p := MembersProperty(graph, t.s, rule.legacy).value;
    MembersPropertyFacts(graph, t.s, rule.legacy);
    ListAtExact(graph, consumed, t.s, p);
    var (head, found) := ListAt(graph, consumed, t.s, p).value;
    SeqOfInjective(found, cells);
    UnderMembers(t, p, head, CellTriples(cells));
    ListAtIff(graph, consumed, t.s, MEMBERS, SeqOf(cells));
    assert head in Objects(graph, t.s, MEMBERS);
    NonEmpty(graph, t.s, MEMBERS);
  }

  lemma NonEmpty(graph: set<Triple>, s: Node, p: Node)
    ensures HasAny(graph, s, p) <==> Objects(graph, s, p) != {}
  {
  }

  lemma MembersNotOlder()
    ensures DISTINCT_MEMBERS != MEMBERS && DISTINCT_MEMBERS != TYPE && DISTINCT_MEMBERS != FIRST && DISTINCT_MEMBERS != REST
  {
    hide Owl, TYPE, FIRST, REST, MeaningOf;
    Meanings();
  }
}
