// The one error that is not reported as a malformed or unsupported graph: a
// facet row whose predicate is not an IRI.
module FacetErrors {
  import opened Rdf
  import opened RdfLists
  import opened Ordering
  import opened Kinds
  import opened Elements
  import opened Passes
  import opened Claims
  import opened Lifting
  import opened Conservation
  import opened Acceptance

  // The anchor of the cell has one unclaimed triple besides those of lists.
  ghost predicate SoleFacet(graph: set<Triple>, consumed: set<Triple>, cell: Cell, t: Triple) {
    IsResource(cell.value) && FacetCandidates(graph, cell.value) == {t} && t !in consumed
  }

  ghost predicate Parses(graph: set<Triple>, consumed: set<Triple>, cell: Cell) {
    exists t :: SoleFacet(graph, consumed, cell, t) && t.p.IRI?
  }

  ghost predicate Escapes(graph: set<Triple>, consumed: set<Triple>, cell: Cell) {
    exists t :: SoleFacet(graph, consumed, cell, t) && !t.p.IRI?
  }

  ghost predicate FirstEscapes(graph: set<Triple>, consumed: set<Triple>, cells: seq<Cell>, k: nat) {
    k < |cells| && Escapes(graph, consumed, cells[k]) && forall i :: 0 <= i < k ==> Parses(graph, consumed, cells[i])
  }

  lemma OneFacet(graph: set<Triple>, consumed: set<Triple>, cell: Cell)
    ensures IsResource(cell.value) && |FacetCandidates(graph, cell.value)| == 1 ==>
      forall t :: FacetCandidates(graph, cell.value) == {t} <==> t == The(FacetCandidates(graph, cell.value))
    ensures Parses(graph, consumed, cell) <==> ParseFacets(graph, consumed, [cell]).Ok?
    ensures Escapes(graph, consumed, cell) <==> ParseFacets(graph, consumed, [cell]) == Err(InvalidFacet)
  {
    hide FacetCandidates;
    var found := FacetCandidates(graph, cell.value);
    assert [cell][1..] == [];
    if IsResource(cell.value) && |found| == 1 {
      var t := The(found);
      forall u ensures found == {u} <==> u == t {
        assert u in {u};
      }
    } else {
      forall t ensures found == {t} ==> |found| == 1 {}
    }
  }

  lemma ParsingGoesOn(graph: set<Triple>, consumed: set<Triple>, cells: seq<Cell>)
    requires cells != []
    ensures Parses(graph, consumed, cells[0]) ==>
      (ParseFacets(graph, consumed, cells) == Err(InvalidFacet) <==> ParseFacets(graph, consumed, cells[1..]) == Err(InvalidFacet))
    ensures !Parses(graph, consumed, cells[0]) ==>
      (ParseFacets(graph, consumed, cells) == Err(InvalidFacet) <==> Escapes(graph, consumed, cells[0]))
  {
    OneFacet(graph, consumed, cells[0]);
    hide FacetCandidates, Parses, Escapes;
    assert [cells[0]][0] == cells[0] && [cells[0]][1..] == [];
  }

  // Exactly when parsing fails that way: at some cell the only triple of the
  // anchor is unclaimed and its predicate is not an IRI, and all cells before
  // it are in order.
  lemma {:induction false} EscapeIff(graph: set<Triple>, consumed: set<Triple>, cells: seq<Cell>)
    ensures ParseFacets(graph, consumed, cells) == Err(InvalidFacet) <==>
      exists k: nat :: FirstEscapes(graph, consumed, cells, k)
    decreases |cells|
  {
    hide FacetCandidates, Parses, Escapes;
    if cells == [] {
      assert forall k: nat :: !FirstEscapes(graph, consumed, cells, k);
    } else {
      ParsingGoesOn(graph, consumed, cells);
      hide ParseFacets;
      if Parses(graph, consumed, cells[0]) {
        EscapeIff(graph, consumed, cells[1..]);
        if k: nat :| FirstEscapes(graph, consumed, cells[1..], k) {
          assert FirstEscapes(graph, consumed, cells, k + 1);
        }
        if k: nat :| FirstEscapes(graph, consumed, cells, k) {
          NotBoth(graph, consumed, cells[0]);
          assert k > 0;
          assert forall i :: 0 <= i < k - 1 ==> cells[1..][i] == cells[i + 1];
          assert FirstEscapes(graph, consumed, cells[1..], k - 1);
        }
      } else {
        if Escapes(graph, consumed, cells[0]) {
          assert FirstEscapes(graph, consumed, cells, 0);
        }
      }
    }
  }

  lemma NotBoth(graph: set<Triple>, consumed: set<Triple>, cell: Cell)
    ensures !(Parses(graph, consumed, cell) && Escapes(graph, consumed, cell))
  {
    OneFacet(graph, consumed, cell);
  }

  // Whole graphs

  // A list cell leads to an anchor whose only triple besides those of lists has
  // a predicate that is not an IRI.
  ghost predicate OddFacet(graph: set<Triple>, cell: Node, t: Triple) {
    t in graph && !t.p.IRI? && FacetCandidates(graph, t.s) == {t} && Triple(cell, FIRST, t.s) in graph
  }

  ghost predicate HasOddFacet(graph: set<Triple>) {
    exists cell, t :: OddFacet(graph, cell, t)
  }

  // A restriction that is in order up to its facets, at which the error escapes.
  ghost predicate RowEscapes(graph: set<Triple>, consumed: set<Triple>, s: Node) {
    && Has(graph, s, TYPE, DATATYPE) && Value(graph, s, ON_DATATYPE).Some? && Value(graph, s, ON_DATATYPE).value.IRI?
    && ListAt(graph, consumed, s, WITH_RESTRICTIONS).Ok?
    && exists k: nat :: FirstEscapes(graph, consumed, ListAt(graph, consumed, s, WITH_RESTRICTIONS).value.1, k)
  }

  lemma FacetsStepIff(graph: set<Triple>, consumed: set<Triple>, s: Node)
    ensures HasFacetsStep(graph, consumed, s) == Err(InvalidFacet) <==> RowEscapes(graph, consumed, s)
  {
    hide Has, ON_DATATYPE, WITH_RESTRICTIONS, ParseFacets, FirstEscapes, Value, CellTriples, AnchorTriples;
    ListErrors(graph, consumed, s, WITH_RESTRICTIONS);
    hide ListAt;
    if ListAt(graph, consumed, s, WITH_RESTRICTIONS).Ok? {
      EscapeIff(graph, consumed, ListAt(graph, consumed, s, WITH_RESTRICTIONS).value.1);
    }
  }

  lemma RowIsOdd(graph: set<Triple>, consumed: set<Triple>, s: Node)
    requires RowEscapes(graph, consumed, s)
    ensures HasOddFacet(graph)
  {
    hide TYPE, DATATYPE, ON_DATATYPE, WITH_RESTRICTIONS, CellTriples;
    var cells := ListAt(graph, consumed, s, WITH_RESTRICTIONS).value.1;
    ListAtExact(graph, consumed, s, WITH_RESTRICTIONS);
    hide ListAt, FirstEscapes;
    var k: nat :| FirstEscapes(graph, consumed, cells, k);
    EscapeIsOdd(graph, consumed, cells, k);
  }

  lemma EscapeIsOdd(graph: set<Triple>, consumed: set<Triple>, cells: seq<Cell>, k: nat)
    requires CellTriples(cells) <= graph && FirstEscapes(graph, consumed, cells, k)
    ensures HasOddFacet(graph)
  {
    hide FIRST, REST, NIL;
    var t :| SoleFacet(graph, consumed, cells[k], t) && !t.p.IRI?;
    assert t in FacetCandidates(graph, cells[k].value);
    assert Triple(cells[k].cell, FIRST, cells[k].value) in CellTriples(cells);
    assert OddFacet(graph, cells[k].cell, t);
  }

  lemma ListErrors(graph: set<Triple>, consumed: set<Triple>, s: Node, p: Node)
    ensures ListAt(graph, consumed, s, p).Err? ==> ListAt(graph, consumed, s, p).error == Malformed
  {
    hide Value, Walk;
  }

  lemma FamilyErrors(graph: set<Triple>, p: Node)
    ensures PropertyFamily(graph, p).Err? ==> PropertyFamily(graph, p).error == Malformed
  {
    hide Has;
  }

  lemma RestrictionErrors(graph: set<Triple>, consumed: set<Triple>, s: Node, p: Node, form: Form)
    ensures RestrictsStep(graph, consumed, s, p, form) != Err(InvalidFacet)
  {
    forall q ensures PropertyFamily(graph, q).Err? ==> PropertyFamily(graph, q).error == Malformed { FamilyErrors(graph, q); }
    hide PropertyFamily, TYPE, RESTRICTION, ON_PROPERTY, ON_PROPERTIES, ON_CLASS, ON_DATA_RANGE, TRUE_BOOLEAN;
    hide IsNonNegativeInteger, Value, ListAt, HasAny, CellTriples;
  }

  lemma OtherErrors(graph: set<Triple>, consumed: set<Triple>, known: set<Node>, pass: Pass, item: Item)
    requires pass.BySubject? ==> !pass.rule.HasFacets?
    ensures Step(graph, consumed, known, pass, item) != Err(InvalidFacet)
  {
    hide TYPE, DATATYPE, CLASS, DATATYPE_PROPERTY, Value, ListAt, CellTriples, RestrictsStep, HasFacetsStep;
    hide OwnsMembersStep, AssertsNegationStep;
    match (pass, item) {
      case (BySubject(p, rule), Named(s)) =>
        ListErrors(graph, consumed, s, p);
        if rule.Restricts? {
          RestrictionErrors(graph, consumed, s, p, rule.form);
        }
      case (ByStatement(_, claim), Stated(t)) => MemberErrors(graph, consumed, known, t, claim);
      case _ =>
    }
  }

  lemma MemberErrors(graph: set<Triple>, consumed: set<Triple>, known: set<Node>, t: Triple, rule: StatementRule)
    ensures rule.OwnsMembers? ==> OwnsMembersStep(graph, consumed, t, rule) != Err(InvalidFacet)
    ensures rule.AssertsNegation? ==> AssertsNegationStep(graph, consumed, known, t, rule.data) != Err(InvalidFacet)
  {
    ListErrors(graph, consumed, t.s, MEMBERS);
    ListErrors(graph, consumed, t.s, DISTINCT_MEMBERS);
    hide TYPE, MEMBERS, DISTINCT_MEMBERS, SOURCE_INDIVIDUAL, ASSERTION_PROPERTY, TARGET_INDIVIDUAL, TARGET_VALUE;
    hide Value, ListAt, HasAny, CellTriples, AllDataProperties;
  }

  ghost predicate WithoutFacets(pass: Pass) {
    pass.BySubject? ==> !pass.rule.HasFacets?
  }

  lemma {:induction false} OtherItems(graph: set<Triple>, known: set<Node>, pass: Pass, claims: seq<Proposal>, items: seq<Item>)
    requires WithoutFacets(pass)
    ensures ApplyItems(graph, known, pass, claims, items) != Err(InvalidFacet)
    decreases |items|
  {
    if items != [] {
      OtherErrors(graph, Claimed(claims), known, pass, items[0]);
      hide Claimed, Step;
      if ApplyItem(graph, known, pass, claims, items[0]).Ok? {
        OtherItems(graph, known, pass, ApplyItem(graph, known, pass, claims, items[0]).value, items[1..]);
      }
    }
  }

  // No other pass yields the error.
  lemma {:induction false} OtherPasses(graph: set<Triple>, claims: seq<Proposal>, passes: seq<Pass>)
    requires forall pass :: pass in passes ==> WithoutFacets(pass)
    ensures ApplyPasses(graph, claims, passes) != Err(InvalidFacet)
    decreases |passes|
  {
    hide Claimed, Items, Known, ElementsOf, ApplyItems, WithoutFacets;
    if passes != [] {
      assert passes[0] in passes && forall pass :: pass in passes[1..] ==> pass in passes;
      OtherItems(graph, Known(passes[0], ElementsOf(claims)), passes[0], claims, Items(graph, Claimed(claims), passes[0]));
      if ApplyPass(graph, claims, passes[0]).Ok? {
        OtherPasses(graph, ApplyPass(graph, claims, passes[0]).value, passes[1..]);
      }
    }
  }

  function FacetsPass(): Pass {
    BySubject(WITH_RESTRICTIONS, HasFacets)
  }

  function EarlyPasses(): seq<Pass> {
    ExpressionPasses()[..8]
  }

  // The first k items are in order, and the error escapes at the next.
  ghost predicate ItemEscapes(graph: set<Triple>, claims: seq<Proposal>, items: seq<Item>, k: nat) {
    && k < |items| && items[k].Named?
    && var r := ApplyItems(graph, {}, FacetsPass(), claims, items[..k]);
      r.Ok? && RowEscapes(graph, Claimed(r.value), items[k].node)
  }

  lemma FirstItem(graph: set<Triple>, claims: seq<Proposal>, items: seq<Item>)
    requires items != [] && items[0].Named?
    ensures ItemEscapes(graph, claims, items, 0) <==>
      ApplyItem(graph, {}, FacetsPass(), claims, items[0]) == Err(InvalidFacet)
  {
    FacetsStepIff(graph, Claimed(claims), items[0].node);
    hide HasFacetsStep, RowEscapes, Claimed;
    assert items[..0] == [];
  }

  lemma LaterItem(graph: set<Triple>, claims: seq<Proposal>, items: seq<Item>, k: nat)
    requires items != []
    ensures var r := ApplyItem(graph, {}, FacetsPass(), claims, items[0]);
      ItemEscapes(graph, claims, items, k + 1) <==> r.Ok? && ItemEscapes(graph, r.value, items[1..], k)
  {
    hide ApplyItem, RowEscapes, Claimed;
    if k + 1 < |items| {
      assert items[..k + 1][0] == items[0] && items[..k + 1][1..] == items[1..][..k];
    }
  }

  lemma {:induction false} ItemsIff(graph: set<Triple>, claims: seq<Proposal>, items: seq<Item>)
    requires forall i :: 0 <= i < |items| ==> items[i].Named?
    ensures ApplyItems(graph, {}, FacetsPass(), claims, items) == Err(InvalidFacet) <==>
      exists k: nat :: ItemEscapes(graph, claims, items, k)
    decreases |items|
  {
    if items == [] {
      assert forall k: nat :: !ItemEscapes(graph, claims, items, k);
    } else {
      FirstItem(graph, claims, items);
      hide ItemEscapes, ApplyItem, FacetsPass;
      var r := ApplyItem(graph, {}, FacetsPass(), claims, items[0]);
      if r.Ok? {
        assert forall i :: 0 <= i < |items[1..]| ==> items[1..][i] == items[i + 1];
        ItemsIff(graph, r.value, items[1..]);
      }
      hide ApplyItems;
      if k: nat :| r.Ok? && ItemEscapes(graph, r.value, items[1..], k) {
        LaterItem(graph, claims, items, k);
      }
      if k: nat :| k > 0 && ItemEscapes(graph, claims, items, k) {
        LaterItem(graph, claims, items, k - 1);
      }
    }
  }

  // Up to the facets all is in order, and there, in the order of names, the
  // first restriction to fail has a list from which the error escapes.
  ghost predicate LiftEscapes(graph: set<Triple>) {
    var early := ApplyPasses(graph, [], EarlyPasses());
    WellFormed(graph) && early.Ok? && exists k: nat :: ItemEscapes(graph, early.value, Items(graph, Claimed(early.value), FacetsPass()), k)
  }

  lemma FacetsPassIff(graph: set<Triple>, claims: seq<Proposal>)
    ensures ApplyPass(graph, claims, FacetsPass()) == Err(InvalidFacet) <==>
      exists k: nat :: ItemEscapes(graph, claims, Items(graph, Claimed(claims), FacetsPass()), k)
  {
    hide ItemEscapes, ApplyItems, Claimed;
    ItemsIff(graph, claims, Items(graph, Claimed(claims), FacetsPass()));
  }

  lemma TheFacetsPass() returns (late: seq<Pass>)
    ensures AllPasses() == EarlyPasses() + ([FacetsPass()] + late)
    ensures forall pass :: pass in EarlyPasses() + late ==> WithoutFacets(pass)
  {
    late := RestrictionPasses() + ListAxiomPasses() + [Differences()] + AxiomPasses() + CharacteristicPasses() +
      DeclarationPasses() + AssertionPasses();
    EarlyWithoutFacets();
    LateWithoutFacets();
    hide ExpressionPasses, EarlyPasses, RestrictionPasses, ListAxiomPasses, Differences, AxiomPasses;
    hide CharacteristicPasses, DeclarationPasses, AssertionPasses, WithoutFacets;
  }

  lemma EarlyWithoutFacets()
    ensures ExpressionPasses() == EarlyPasses() + [FacetsPass()]
    ensures forall pass :: pass in EarlyPasses() ==> WithoutFacets(pass)
  {
    hide Owl, DATATYPE, CLASS, WITH_RESTRICTIONS;
  }

  lemma LateWithoutFacets()
    ensures forall pass :: pass in RestrictionPasses() ==> WithoutFacets(pass)
    ensures forall pass :: pass in ListAxiomPasses() ==> WithoutFacets(pass)
    ensures WithoutFacets(Differences())
    ensures forall pass :: pass in AxiomPasses() ==> WithoutFacets(pass)
    ensures forall pass :: pass in CharacteristicPasses() ==> WithoutFacets(pass)
    ensures forall pass :: pass in DeclarationPasses() ==> WithoutFacets(pass)
    ensures forall pass :: pass in AssertionPasses() ==> WithoutFacets(pass)
  {
    hide Owl, Rdfs;
  }

  // Exactly when the error escapes from a whole graph.
  lemma LiftEscapesIff(graph: set<Triple>)
    ensures Lift(graph) == Err(InvalidFacet) <==> LiftEscapes(graph)
  {
    var late := TheFacetsPass();
    hide EarlyPasses, FacetsPass, AllPasses, ApplyPass, ItemEscapes, Items, Claimed, StableSort, WellFormed;
    hide WithoutFacets;
    var early, rest := EarlyPasses(), [FacetsPass()] + late;
    PassesConcat(graph, [], early, rest);
    OtherPasses(graph, [], early);
    var r := ApplyPasses(graph, [], early);
    if r.Ok? {
      assert rest[0] == FacetsPass() && rest[1..] == late;
      FacetsPassIff(graph, r.value);
      if ApplyPass(graph, r.value, FacetsPass()).Ok? {
        OtherPasses(graph, ApplyPass(graph, r.value, FacetsPass()).value, late);
      }
    }
  }

  // In particular some anchor on a list cell has such a triple as its only one,
  // and where all predicates are IRIs the error never escapes.
  lemma InvalidFacetCause(graph: set<Triple>)
    ensures Lift(graph) == Err(InvalidFacet) ==> HasOddFacet(graph)
    ensures (forall t :: t in graph ==> t.p.IRI?) ==> Lift(graph) != Err(InvalidFacet)
  {
    hide Lift;
    LiftEscapesIff(graph);
    if Lift(graph) == Err(InvalidFacet) {
      var claims := ApplyPasses(graph, [], EarlyPasses()).value;
      hide ApplyPasses, RowEscapes;
      var items := Items(graph, Claimed(claims), FacetsPass());
      var k: nat :| ItemEscapes(graph, claims, items, k);
      RowIsOdd(graph, Claimed(ApplyItems(graph, {}, FacetsPass(), claims, items[..k]).value), items[k].node);
    }
  }

  // A graph from which it escapes

  const NAME := BNode("range")
  const CELL := BNode("cell")
  const ANCHOR := BNode("anchor")
  const ODD := Triple(ANCHOR, BNode("facet"), Literal("1"))

  function OddGraph(): set<Triple> {
    {Triple(NAME, TYPE, DATATYPE), Triple(NAME, ON_DATATYPE, IRI("integer")), Triple(NAME, WITH_RESTRICTIONS, CELL),
     Triple(CELL, FIRST, ANCHOR), Triple(CELL, REST, NIL), ODD}
  }

  // The properties of the graph, told apart from each other and from those of
  // the passes before facets.
  lemma OddProperties()
    ensures NIL.IRI? && DATATYPE.IRI? && FIRST.IRI? && REST.IRI?
    ensures TYPE.IRI? && ON_DATATYPE.IRI? && WITH_RESTRICTIONS.IRI?
    ensures REST != TYPE && REST != ON_DATATYPE && REST != WITH_RESTRICTIONS && REST != FIRST
    ensures FIRST != TYPE && FIRST != ON_DATATYPE && FIRST != WITH_RESTRICTIONS
    ensures WITH_RESTRICTIONS != TYPE && WITH_RESTRICTIONS != ON_DATATYPE && ON_DATATYPE != TYPE
    ensures forall word :: word in {IntersectionOf, UnionOf, ComplementOf, OneOf} ==>
      Owl(word).IRI? && Owl(word) !in {TYPE, ON_DATATYPE, WITH_RESTRICTIONS, FIRST, REST}
  {
    Meanings();
    assert forall word :: Owl(word).IRI? && Rdfs(word).IRI?;
    hide TYPE, FIRST, REST, NIL, Owl, Rdfs, MeaningOf;
  }

  // The objects of each subject, the vocabulary being told apart.
  lemma OddObjects()
    ensures var g := OddGraph();
      && Objects(g, NAME, ON_DATATYPE) == {IRI("integer")} && Objects(g, NAME, WITH_RESTRICTIONS) == {CELL}
      && Objects(g, CELL, FIRST) == {ANCHOR} && Objects(g, CELL, REST) == {NIL} && Incoming(g, CELL) == {}
      && FacetCandidates(g, ANCHOR) == {ODD} && SubjectsOf(g, WITH_RESTRICTIONS) == {NAME}
  {
    OddProperties();
    hide TYPE, DATATYPE, FIRST, REST, NIL, ON_DATATYPE, WITH_RESTRICTIONS;
  }

  lemma OddWalk()
    ensures Walk(OddGraph(), {}, CELL) == Ok([Cell(CELL, ANCHOR)])
  {
    OddObjects();
    hide OddGraph, FIRST, REST;
    var g := OddGraph();
    assert CellNodes([]) == {};
    assert CheckCell(g, {}, [], CELL) == Ok((ANCHOR, NIL));
    assert [] + [Cell(CELL, ANCHOR)] == [Cell(CELL, ANCHOR)];
    assert WalkFrom(g, {}, [Cell(CELL, ANCHOR)], NIL) == Ok([Cell(CELL, ANCHOR)]);
  }

  lemma OddStep(known: set<Node>)
    ensures Step(OddGraph(), {}, known, FacetsPass(), Named(NAME)) == Err(InvalidFacet)
  {
    assert Triple(NAME, TYPE, DATATYPE) in OddGraph();
    OddObjects();
    OddWalk();
    hide OddGraph, TYPE, DATATYPE, ON_DATATYPE, WITH_RESTRICTIONS, FIRST, REST, NIL, Walk, Objects, FacetCandidates;
    hide CellTriples;
    var g, cells := OddGraph(), [Cell(CELL, ANCHOR)];
    assert ParseFacets(g, {}, cells) == Err(InvalidFacet) by {
      assert SoleFacet(g, {}, cells[0], ODD);
      assert FirstEscapes(g, {}, cells, 0);
      EscapeIff(g, {}, cells);
    }
    hide ParseFacets;
    assert ListAt(g, {}, NAME, WITH_RESTRICTIONS) == Ok((CELL, cells));
  }

  lemma OddPass()
    ensures ApplyPass(OddGraph(), [], FacetsPass()) == Err(InvalidFacet)
  {
    var g := OddGraph();
    OddObjects();
    NodesOrdered();
    hide OddGraph, NodeLe;
    SortingIsUnique(Sorted({NAME}, NodeLe), [NAME], {NAME}, NodeLe);
    assert Items(g, {}, FacetsPass()) == [Named(NAME)];
    assert Claimed([]) == {};
    hide Step, Items;
    OddStep(Known(FacetsPass(), ElementsOf([])));
  }

  lemma EarlyIdle()
    ensures forall pass :: pass in ExpressionPasses()[..8] ==> Idle(OddGraph(), pass)
  {
    OddProperties();
    hide TYPE, DATATYPE, CLASS, FIRST, REST, NIL, ON_DATATYPE, WITH_RESTRICTIONS, Owl;
    forall word | word in {IntersectionOf, UnionOf, ComplementOf, OneOf} ensures SubjectsOf(OddGraph(), Owl(word)) == {} {}
    hide SubjectsOf, OddGraph;
  }

  // The expression passes stop at the facets.
  lemma OddPasses(late: seq<Pass>)
    ensures ApplyPasses(OddGraph(), [], ExpressionPasses() + late) == Err(InvalidFacet)
  {
    var g, early, rest := OddGraph(), ExpressionPasses()[..8], [FacetsPass()] + late;
    assert ExpressionPasses() + late == early + rest;
    EarlyIdle();
    OddPass();
    hide OddGraph, ExpressionPasses, FacetsPass, ApplyPass, Idle;
    IdlePasses(g, [], early);
    PassesConcat(g, [], early, rest);
    assert rest[0] == FacetsPass();
  }

  lemma OddWellFormed()
    ensures WellFormed(OddGraph())
  {
    OddProperties();
    hide NIL, FIRST, REST, ON_DATATYPE, WITH_RESTRICTIONS;
  }

  lemma ExpressionsFirst()
    ensures ExpressionPasses() <= AllPasses()
  {
    hide ExpressionPasses, RestrictionPasses, ListAxiomPasses, Differences, AxiomPasses, CharacteristicPasses;
    hide DeclarationPasses, AssertionPasses;
  }

  lemma InvalidFacetEscapes()
    ensures Lift(OddGraph()) == Err(InvalidFacet)
  {
    OddWellFormed();
    ExpressionsFirst();
    hide OddGraph, WellFormed, AllPasses, ExpressionPasses, ApplyPasses, StableSort;
    var late := AllPasses()[|ExpressionPasses()|..];
    assert AllPasses() == ExpressionPasses() + late;
    OddPasses(late);
  }
}
