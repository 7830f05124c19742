// Lifting what the elements of a graph print gives them again, also where an
// older list comes back renamed. The passes take the same steps on both graphs.
module RoundTrip {
  import opened Rdf
  import opened RdfLists
  import opened Ordering
  import opened Kinds
  import opened Elements
  import opened Passes
  import opened Claims
  import opened Lifting
  import opened Conservation

  // Two graphs that are alike but for the lists of n-ary differences

  // The node of an n-ary difference with the older list property.
  ghost predicate Older(graph: set<Triple>, s: Node) {
    Triple(s, TYPE, ALL_DIFFERENT) in graph && HasAny(graph, s, DISTINCT_MEMBERS)
  }

  ghost predicate Steady(p: Node) {
    p != MEMBERS && p != DISTINCT_MEMBERS
  }

  // Printing leaves the triple where it is, and puts no other in its place.
  ghost predicate Kept(graph: set<Triple>, t: Triple) {
    Steady(t.p) || !Older(graph, t.s)
  }

  // Graphs, and what has been consumed of them, that agree on such triples.
  ghost predicate Alike(g: set<Triple>, h: set<Triple>, c: set<Triple>, d: set<Triple>) {
    forall t :: Kept(g, t) ==> (t in g <==> t in h) && (t in c <==> t in d)
  }

  lemma KeptSame(graph: set<Triple>, triples: set<Triple>, t: Triple)
    requires triples <= graph && Kept(graph, t)
    ensures t in triples <==> t in RenamedAll(graph, triples)
  {
    hide TYPE, MEMBERS, DISTINCT_MEMBERS, ALL_DIFFERENT;
    forall u | u in triples && Legacy(graph, u) ensures Older(graph, u.s) {
      assert u.o in Objects(graph, u.s, DISTINCT_MEMBERS);
    }
    if t in triples {
      assert Renamed(graph, t) == t;
    }
  }

  lemma PrintedAlike(graph: set<Triple>, consumed: set<Triple>)
    requires consumed <= graph
    ensures Alike(graph, RenamedAll(graph, graph), consumed, RenamedAll(graph, consumed))
  {
    hide Kept, RenamedAll;
    forall t | Kept(graph, t)
      ensures t in graph <==> t in RenamedAll(graph, graph)
      ensures t in consumed <==> t in RenamedAll(graph, consumed)
    {
      KeptSame(graph, graph, t);
      KeptSame(graph, consumed, t);
    }
  }

  lemma OwnSteady()
    ensures Steady(TYPE) && Steady(FIRST) && Steady(REST) && TYPE != FIRST
    ensures Steady(ON_PROPERTY) && Steady(ON_PROPERTIES) && Steady(ON_CLASS) && Steady(ON_DATA_RANGE)
    ensures Steady(ON_DATATYPE) && Steady(WITH_RESTRICTIONS)
    ensures Steady(SOURCE_INDIVIDUAL) && Steady(ASSERTION_PROPERTY) && Steady(TARGET_INDIVIDUAL) && Steady(TARGET_VALUE)
  {
    hide Owl, TYPE, FIRST, REST, MeaningOf;
    Meanings();
  }

  lemma ObjectsSame(g: set<Triple>, h: set<Triple>, c: set<Triple>, d: set<Triple>, s: Node, p: Node)
    requires Alike(g, h, c, d) && (Steady(p) || !Older(g, s))
    ensures Objects(g, s, p) == Objects(h, s, p) && HasAny(g, s, p) == HasAny(h, s, p)
    ensures Value(g, s, p) == Value(h, s, p)
    ensures forall o :: (Has(g, s, p, o) <==> Has(h, s, p, o)) && (Triple(s, p, o) in c <==> Triple(s, p, o) in d)
  {
    hide Steady, Older;
    forall o ensures Kept(g, Triple(s, p, o)) {}
    hide Kept;
    forall o | o in Objects(g, s, p) ensures Triple(s, p, o) in h {}
    forall o | o in Objects(h, s, p) ensures Triple(s, p, o) in g {}
  }

  // Lists

  lemma RestSame(g: set<Triple>, h: set<Triple>, c: set<Triple>, d: set<Triple>, n: Node)
    requires Alike(g, h, c, d)
    ensures Incoming(g, n) == Incoming(h, n)
  {
    OwnSteady();
    hide REST, Steady, Older;
    forall t: Triple | t.p == REST ensures t in g <==> t in h {
      assert Kept(g, t);
    }
  }

  lemma CheckSame(g: set<Triple>, h: set<Triple>, c: set<Triple>, d: set<Triple>, cells: seq<Cell>, current: Node)
    requires Alike(g, h, c, d)
    ensures CheckCell(g, c, cells, current) == CheckCell(h, d, cells, current)
  {
    hide FIRST, REST, Steady, Alike, Incoming;
    OwnSteady();
    ObjectsSame(g, h, c, d, current, FIRST);
    ObjectsSame(g, h, c, d, current, REST);
    RestSame(g, h, c, d, current);
    hide Objects;
  }

  lemma {:induction false} WalkSame(g: set<Triple>, h: set<Triple>, c: set<Triple>, d: set<Triple>, cells: seq<Cell>, current: Node)
    requires Alike(g, h, c, d)
    ensures WalkFrom(g, c, cells, current) == WalkFrom(h, d, cells, current)
    decreases |RestSubjects(g) - CellNodes(cells)|
  {
    hide Alike;
    CheckSame(g, h, c, d, cells, current);
    if current != NIL && CheckCell(g, c, cells, current).Ok? {
      var (first, rest) := CheckCell(g, c, cells, current).value;
      CheckedCell(g, c, cells, current);
      hide CheckCell;
      FewerLeft(g, cells, Cell(current, first));
      WalkSame(g, h, c, d, cells + [Cell(current, first)], rest);
    }
  }

  lemma ListSame(g: set<Triple>, h: set<Triple>, c: set<Triple>, d: set<Triple>, s: Node, p: Node)
    requires Alike(g, h, c, d) && (Steady(p) || !Older(g, s))
    ensures ListAt(g, c, s, p) == ListAt(h, d, s, p)
  {
    hide Alike, Steady, Older;
    ObjectsSame(g, h, c, d, s, p);
    if Value(g, s, p).Some? {
      WalkSame(g, h, c, d, [], Value(g, s, p).value);
    }
    hide Value, WalkFrom;
  }

  // Subject rules

  lemma OwnsListSame(g: set<Triple>, h: set<Triple>, c: set<Triple>, d: set<Triple>, s: Node, p: Node, rule: SubjectRule)
    requires rule.OwnsList? && Alike(g, h, c, d) && Steady(p)
    ensures OwnsListStep(g, c, s, p, rule) == OwnsListStep(h, d, s, p, rule)
  {
    hide Alike, Steady, TYPE;
    OwnSteady();
    ObjectsSame(g, h, c, d, s, TYPE);
    ListSame(g, h, c, d, s, p);
    hide Has, ListAt;
  }

  lemma HasOperandSame(g: set<Triple>, h: set<Triple>, c: set<Triple>, d: set<Triple>, s: Node, p: Node, rule: SubjectRule)
    requires rule.HasOperand? && Alike(g, h, c, d) && Steady(p)
    ensures HasOperandStep(g, s, p, rule) == HasOperandStep(h, s, p, rule)
  {
    hide Alike, Steady, TYPE;
    OwnSteady();
    ObjectsSame(g, h, c, d, s, TYPE);
    ObjectsSame(g, h, c, d, s, p);
    hide Has, Value;
  }

  // The node of an n-ary difference has two triples besides those of lists.
  lemma OlderIsNoAnchor(graph: set<Triple>, s: Node)
    requires Older(graph, s)
    ensures |FacetCandidates(graph, s)| != 1
  {
    hide TYPE, FIRST, REST, ALL_DIFFERENT, DISTINCT_MEMBERS;
    TypeDistinct();
    var o :| o in Objects(graph, s, DISTINCT_MEMBERS);
    var t, u := Triple(s, TYPE, ALL_DIFFERENT), Triple(s, DISTINCT_MEMBERS, o);
    assert t in FacetCandidates(graph, s) && u in FacetCandidates(graph, s) && t != u;
    if |FacetCandidates(graph, s)| == 1 {
      SingletonUnique(FacetCandidates(graph, s));
    }
  }

  lemma CandidatesSame(g: set<Triple>, h: set<Triple>, c: set<Triple>, d: set<Triple>, s: Node)
    requires Alike(g, h, c, d) && !Older(g, s)
    ensures FacetCandidates(g, s) == FacetCandidates(h, s)
    ensures forall t :: t in FacetCandidates(g, s) ==> (t in c <==> t in d)
  {
    hide Older, Steady, FIRST, REST;
    forall t: Triple | t.s == s ensures (t in g <==> t in h) && (t in c <==> t in d) {
      assert Kept(g, t);
    }
  }

  lemma {:induction false} FacetsSame(g: set<Triple>, h: set<Triple>, c: set<Triple>, d: set<Triple>, cells: seq<Cell>)
    requires Alike(g, h, c, d) && ParseFacets(g, c, cells).Ok?
    ensures ParseFacets(g, c, cells) == ParseFacets(h, d, cells)
    decreases |cells|
  {
    hide Alike, FacetCandidates;
    if cells != [] {
      if Older(g, cells[0].value) {
        OlderIsNoAnchor(g, cells[0].value);
      }
      CandidatesSame(g, h, c, d, cells[0].value);
      FacetsSame(g, h, c, d, cells[1..]);
    }
  }

  lemma HasFacetsSame(g: set<Triple>, h: set<Triple>, c: set<Triple>, d: set<Triple>, s: Node)
    requires Alike(g, h, c, d) && HasFacetsStep(g, c, s).Ok?
    ensures HasFacetsStep(g, c, s) == HasFacetsStep(h, d, s)
  {
    hide Alike, Steady, TYPE, DATATYPE, ON_DATATYPE, WITH_RESTRICTIONS;
    OwnSteady();
    ObjectsSame(g, h, c, d, s, TYPE);
    ObjectsSame(g, h, c, d, s, ON_DATATYPE);
    ListSame(g, h, c, d, s, WITH_RESTRICTIONS);
    hide Has, Value, ListAt;
    if ListAt(g, c, s, WITH_RESTRICTIONS).Ok? && ParseFacets(g, c, ListAt(g, c, s, WITH_RESTRICTIONS).value.1).Ok? {
      FacetsSame(g, h, c, d, ListAt(g, c, s, WITH_RESTRICTIONS).value.1);
    }
    hide ParseFacets, CellTriples, AnchorTriples;
  }

  lemma FamilySame(g: set<Triple>, h: set<Triple>, c: set<Triple>, d: set<Triple>, p: Node)
    requires Alike(g, h, c, d)
    ensures PropertyFamily(g, p) == PropertyFamily(h, p)
  {
    hide Alike, Steady, TYPE, Owl, ObjectHints;
    OwnSteady();
    ObjectsSame(g, h, c, d, p, TYPE);
    hide Has;
  }

  lemma RestrictsSame(g: set<Triple>, h: set<Triple>, c: set<Triple>, d: set<Triple>, s: Node, p: Node, form: Form)
    requires Alike(g, h, c, d) && Steady(p)
    ensures RestrictsStep(g, c, s, p, form) == RestrictsStep(h, d, s, p, form)
  {
    hide Alike, Steady, TYPE, RESTRICTION, FillerStep, QualifiedStep;
    OwnSteady();
    ObjectsSame(g, h, c, d, s, TYPE);
    match form {
      case Filler(_, _, _) => FillerSame(g, h, c, d, s, p, form);
      case Qualified(_, _) => QualifiedSame(g, h, c, d, s, p, form);
      case _ => SimpleSame(g, h, c, d, s, p, form);
    }
  }

  lemma SimpleSame(g: set<Triple>, h: set<Triple>, c: set<Triple>, d: set<Triple>, s: Node, p: Node, form: Form)
    requires Alike(g, h, c, d) && Steady(p) && !form.Filler? && !form.Qualified?
    ensures RestrictsStep(g, c, s, p, form) == RestrictsStep(h, d, s, p, form)
  {
    hide Alike, Steady, TYPE, RESTRICTION, ON_PROPERTY, Has, Value, RestrictionKind, DescribedProposal, FillerStep;
    hide QualifiedStep;
    OwnValuesSame(g, h, c, d, s, p);
    if Value(g, s, ON_PROPERTY).Some? && Value(g, s, p).Some? {
      KindSame(g, h, c, d, Value(g, s, ON_PROPERTY).value, Value(g, s, p).value, form);
    }
  }

  lemma OwnValuesSame(g: set<Triple>, h: set<Triple>, c: set<Triple>, d: set<Triple>, s: Node, p: Node)
    requires Alike(g, h, c, d) && Steady(p)
    ensures Has(g, s, TYPE, RESTRICTION) == Has(h, s, TYPE, RESTRICTION)
    ensures Triple(s, TYPE, RESTRICTION) in c <==> Triple(s, TYPE, RESTRICTION) in d
    ensures Value(g, s, ON_PROPERTY) == Value(h, s, ON_PROPERTY) && Value(g, s, p) == Value(h, s, p)
  {
    hide Alike, Steady, TYPE, RESTRICTION, ON_PROPERTY;
    OwnSteady();
    ObjectsSame(g, h, c, d, s, TYPE);
    ObjectsSame(g, h, c, d, s, ON_PROPERTY);
    ObjectsSame(g, h, c, d, s, p);
  }

  lemma KindSame(g: set<Triple>, h: set<Triple>, c: set<Triple>, d: set<Triple>, property: Node, v: Node, form: Form)
    requires Alike(g, h, c, d) && !form.Filler? && !form.Qualified?
    ensures RestrictionKind(g, property, v, form) == RestrictionKind(h, property, v, form)
  {
    FamilySame(g, h, c, d, property);
    hide Alike, PropertyFamily, IsNonNegativeInteger, TRUE_BOOLEAN;
  }

  lemma QualifiedSame(g: set<Triple>, h: set<Triple>, c: set<Triple>, d: set<Triple>, s: Node, p: Node, form: Form)
    requires form.Qualified? && Alike(g, h, c, d) && Steady(p)
    ensures QualifiedStep(g, s, p, form) == QualifiedStep(h, s, p, form)
  {
    hide Alike, Steady, ON_PROPERTY, ON_CLASS, ON_DATA_RANGE, RESTRICTION;
    OwnSteady();
    ObjectsSame(g, h, c, d, s, ON_PROPERTY);
    ObjectsSame(g, h, c, d, s, ON_CLASS);
    ObjectsSame(g, h, c, d, s, ON_DATA_RANGE);
    ObjectsSame(g, h, c, d, s, p);
    hide HasAny, Value, IsNonNegativeInteger;
  }

  lemma FillerSame(g: set<Triple>, h: set<Triple>, c: set<Triple>, d: set<Triple>, s: Node, p: Node, form: Form)
    requires form.Filler? && Alike(g, h, c, d) && Steady(p)
    ensures FillerStep(g, c, s, p, form) == FillerStep(h, d, s, p, form)
  {
    hide Alike, Steady, TYPE, RESTRICTION, ON_PROPERTY, ON_PROPERTIES;
    OwnSteady();
    ObjectsSame(g, h, c, d, s, ON_PROPERTY);
    ObjectsSame(g, h, c, d, s, ON_PROPERTIES);
    ObjectsSame(g, h, c, d, s, p);
    ListSame(g, h, c, d, s, ON_PROPERTIES);
    hide HasAny, Value, ListAt;
    if Value(g, s, ON_PROPERTY).Some? {
      FamilySame(g, h, c, d, Value(g, s, ON_PROPERTY).value);
    }
    hide PropertyFamily, CellTriples;
  }

  lemma SubjectSame(g: set<Triple>, h: set<Triple>, c: set<Triple>, d: set<Triple>, s: Node, p: Node, rule: SubjectRule)
    requires Alike(g, h, c, d) && Steady(p) && SubjectStep(g, c, s, p, rule).Ok?
    ensures SubjectStep(g, c, s, p, rule) == SubjectStep(h, d, s, p, rule)
  {
    hide Alike, Steady, OwnsListStep, HasOperandStep, HasFacetsStep, RestrictsStep;
    match rule {
      case OwnsList(_, _, _, _) => OwnsListSame(g, h, c, d, s, p, rule);
      case HasOperand(_, _) => HasOperandSame(g, h, c, d, s, p, rule);
      case HasFacets => HasFacetsSame(g, h, c, d, s);
      case Restricts(form) => RestrictsSame(g, h, c, d, s, p, form);
    }
  }

  // Statement rules

  lemma TypedSame(g: set<Triple>, h: set<Triple>, c: set<Triple>, d: set<Triple>, t: Triple)
    requires Alike(g, h, c, d) && Steady(t.p)
    ensures t in c <==> t in d
    ensures forall n, o :: Has(g, n, TYPE, o) <==> Has(h, n, TYPE, o)
  {
    hide Alike, Steady, TYPE;
    OwnSteady();
    ObjectsSame(g, h, c, d, t.s, t.p);
    assert t == Triple(t.s, t.p, t.o);
    forall n, o ensures Has(g, n, TYPE, o) <==> Has(h, n, TYPE, o) {
      ObjectsSame(g, h, c, d, n, TYPE);
    }
  }

  lemma SingleSame(g: set<Triple>, h: set<Triple>, c: set<Triple>, d: set<Triple>, known: set<Node>, t: Triple,
      rule: StatementRule)
    requires Alike(g, h, c, d) && Steady(t.p)
    requires rule.Declares? || rule.States? || rule.AssertsClass?
    ensures StatementStep(g, c, known, t, rule) == StatementStep(h, d, known, t, rule)
  {
    hide Alike, Steady, TYPE, DATATYPE, CLASS, DATATYPE_PROPERTY;
    TypedSame(g, h, c, d, t);
    hide Has;
  }

  // Both properties in use is an error, so a list of members is not the one
  // of an n-ary difference with the older property.
  lemma MembersSame(g: set<Triple>, h: set<Triple>, c: set<Triple>, d: set<Triple>, t: Triple, rule: StatementRule)
    requires Alike(g, h, c, d) && NoClash(g) && t.p == TYPE
    requires rule.OwnsMembers? && (!rule.legacy || !Older(g, t.s))
    requires OwnsMembersStep(g, c, t, rule).Ok?
    ensures OwnsMembersStep(g, c, t, rule) == OwnsMembersStep(h, d, t, rule)
  {
    hide Alike, Steady, TYPE, ALL_DIFFERENT, MEMBERS, DISTINCT_MEMBERS, DATATYPE_PROPERTY;
    OwnSteady();
    TypedSame(g, h, c, d, t);
    if t !in c {
      NotOlder(g, c, t, rule);
      hide NoClash, Older;
      ObjectsSame(g, h, c, d, t.s, MEMBERS);
      ObjectsSame(g, h, c, d, t.s, DISTINCT_MEMBERS);
      hide HasAny;
      ListSame(g, h, c, d, t.s, MEMBERS);
      ListSame(g, h, c, d, t.s, DISTINCT_MEMBERS);
      hide ListAt, Has, CellTriples;
    }
  }

  lemma NotOlder(g: set<Triple>, c: set<Triple>, t: Triple, rule: StatementRule)
    requires NoClash(g) && t !in c && rule.OwnsMembers? && (!rule.legacy || !Older(g, t.s))
    requires OwnsMembersStep(g, c, t, rule).Ok?
    ensures !Older(g, t.s)
  {
    hide Older, NoClash;
    if !rule.legacy {
      ValueInGraph(g, t.s, MEMBERS);
      hide OwnsMembersStep;
      assert HasAny(g, t.s, MEMBERS);
      if Older(g, t.s) {
        OlderAlone(g, t.s);
      }
    }
  }

  lemma OlderAlone(graph: set<Triple>, s: Node)
    requires NoClash(graph) && Older(graph, s)
    ensures !HasAny(graph, s, MEMBERS)
  {
    hide TYPE, ALL_DIFFERENT, MEMBERS, DISTINCT_MEMBERS;
    var o :| o in Objects(graph, s, DISTINCT_MEMBERS);
    assert Legacy(graph, Triple(s, DISTINCT_MEMBERS, o));
  }

  lemma NegationSame(g: set<Triple>, h: set<Triple>, c: set<Triple>, d: set<Triple>, known: set<Node>, t: Triple, data: bool)
    requires Alike(g, h, c, d) && t.p == TYPE
    ensures AssertsNegationStep(g, c, known, t, data) == AssertsNegationStep(h, d, known, t, data)
  {
    hide Alike, Steady, TYPE, SOURCE_INDIVIDUAL, ASSERTION_PROPERTY, TARGET_INDIVIDUAL, TARGET_VALUE;
    OwnSteady();
    TypedSame(g, h, c, d, t);
    ObjectsSame(g, h, c, d, t.s, SOURCE_INDIVIDUAL);
    ObjectsSame(g, h, c, d, t.s, ASSERTION_PROPERTY);
    ObjectsSame(g, h, c, d, t.s, TARGET_INDIVIDUAL);
    ObjectsSame(g, h, c, d, t.s, TARGET_VALUE);
    hide HasAny, Value, Has;
  }

  // One item of a pass

  // The pass does not look at lists of members, or only at those of n-ary
  // disjointness axioms.
  ghost predicate Apart(pass: Pass) {
    match pass
    case BySubject(p, _) => Steady(p)
    case ByStatement(WithProperty(p), _) => Steady(p)
    case _ => true
  }

  lemma StepSame(g: set<Triple>, h: set<Triple>, begun: set<Triple>, c: set<Triple>, d: set<Triple>, known: set<Node>,
      pass: Pass, item: Item)
    requires Alike(g, h, c, d) && NoClash(g) && Late(pass) && Apart(pass) && Fits(g, begun, pass, item)
    requires Step(g, c, known, pass, item).Ok?
    ensures Step(g, c, known, pass, item) == Step(h, d, known, pass, item)
  {
    hide Alike, NoClash, Steady, PlainProperty, TYPE, ALL_DIFFERENT, NEGATIVE_ASSERTION, SubjectStep;
    OwnSteady();
    if pass.BySubject? {
      SubjectSame(g, h, c, d, item.node, pass.property, pass.rule);
    } else {
      StatementSame(g, h, c, d, known, pass, item.triple);
    }
  }

  lemma StatementSame(g: set<Triple>, h: set<Triple>, c: set<Triple>, d: set<Triple>, known: set<Node>, pass: Pass, t: Triple)
    requires Alike(g, h, c, d) && NoClash(g) && pass.ByStatement?
    requires Steady(t.p) || pass.claim.AssertsProperty?
    requires pass.claim.OwnsMembers? ==> t.p == TYPE && !pass.claim.legacy
    requires pass.claim.AssertsNegation? ==> t.p == TYPE
    requires StatementStep(g, c, known, t, pass.claim).Ok?
    ensures StatementStep(g, c, known, t, pass.claim) == StatementStep(h, d, known, t, pass.claim)
  {
    hide Alike, NoClash, Steady, TYPE, OwnsMembersStep, AssertsNegationStep, DeclaresStep, StatesStep;
    hide AssertsClassStep;
    match pass.claim {
      case OwnsMembers(_, _, _) => MembersSame(g, h, c, d, t, pass.claim);
      case AssertsNegation(data) => NegationSame(g, h, c, d, known, t, data);
      case AssertsProperty(_) =>
      case _ => SingleSame(g, h, c, d, known, t, pass.claim);
    }
  }

  // Claims on the printed graph

  function Mirrored(graph: set<Triple>, claims: seq<Proposal>): seq<Proposal> {
    seq(|claims|, i requires 0 <= i < |claims| => Proposal(claims[i].element, RenamedAll(graph, claims[i].triples)))
  }

  lemma MirroredClaims(graph: set<Triple>, claims: seq<Proposal>)
    ensures ElementsOf(Mirrored(graph, claims)) == ElementsOf(claims)
    ensures Claimed(Mirrored(graph, claims)) == RenamedAll(graph, Claimed(claims))
  {
    hide Renamed;
    var mirror := Mirrored(graph, claims);
    forall t | t in Claimed(mirror) ensures t in RenamedAll(graph, Claimed(claims)) {
      var i :| 0 <= i < |mirror| && t in mirror[i].triples;
      var u :| u in claims[i].triples && Renamed(graph, u) == t;
      assert u in Claimed(claims);
    }
    forall t | t in RenamedAll(graph, Claimed(claims)) ensures t in Claimed(mirror) {
      var u :| u in Claimed(claims) && Renamed(graph, u) == t;
      var i :| 0 <= i < |claims| && u in claims[i].triples;
      assert t in mirror[i].triples;
    }
  }

  lemma MirroredPlus(graph: set<Triple>, claims: seq<Proposal>, claim: Proposal)
    ensures Mirrored(graph, claims + [claim]) ==
      Mirrored(graph, claims) + [Proposal(claim.element, RenamedAll(graph, claim.triples))]
  {
    hide RenamedAll;
  }

  lemma DisjointMirrored(graph: set<Triple>, a: set<Triple>, b: set<Triple>)
    requires NoClash(graph) && a <= graph && b <= graph && a !! b
    ensures RenamedAll(graph, a) !! RenamedAll(graph, b)
  {
    hide NoClash, Renamed;
    forall t, u | t in a && u in b ensures Renamed(graph, t) != Renamed(graph, u) {
      if Renamed(graph, t) == Renamed(graph, u) {
        RenamedInjective(graph, t, u);
      }
    }
  }

  // Where the step on the printed graph claims what the first one does, renamed,
  // the claims stay mirrored.
  lemma ItemMirrored(graph: set<Triple>, known: set<Node>, pass: Pass, claims: seq<Proposal>, item: Item)
    requires NoClash(graph) && Claimed(claims) <= graph && ApplyItem(graph, known, pass, claims, item).Ok?
    requires var step := Step(graph, Claimed(claims), known, pass, item);
      step.value.Some? ==> step.value.value.triples <= graph
    requires var step := Step(graph, Claimed(claims), known, pass, item);
      Step(RenamedAll(graph, graph), RenamedAll(graph, Claimed(claims)), known, pass, item) ==
      Ok(if step.value.None? then None
         else Some(Proposal(step.value.value.element, RenamedAll(graph, step.value.value.triples))))
    ensures ApplyItem(RenamedAll(graph, graph), known, pass, Mirrored(graph, claims), item) ==
      Ok(Mirrored(graph, ApplyItem(graph, known, pass, claims, item).value))
  {
    hide NoClash, Step;
    MirroredClaims(graph, claims);
    var step := Step(graph, Claimed(claims), known, pass, item);
    if step.value.Some? {
      DisjointMirrored(graph, step.value.value.triples, Claimed(claims));
      MirroredPlus(graph, claims, step.value.value);
    }
    hide RenamedAll, Mirrored, Claimed;
  }

  // Nothing that is renamed is claimed: the pass takes none of it, or all of it
  // has been claimed before.
  lemma ClaimUnchanged(graph: set<Triple>, begun: set<Triple>, consumed: set<Triple>, triples: set<Triple>)
    requires triples <= graph && triples !! consumed
    requires Ordinary(graph, triples) || (Settled(graph, begun) && begun <= consumed)
    ensures RenamedAll(graph, triples) == triples
  {
    hide Legacy, Awaited;
    OrdinaryUnchanged(graph, triples);
  }

  lemma LateItem(graph: set<Triple>, begun: set<Triple>, known: set<Node>, pass: Pass, claims: seq<Proposal>, item: Item)
    requires NoClash(graph) && begun <= Claimed(claims) <= graph && Late(pass) && Apart(pass)
    requires LeavesDifferences(pass) || Settled(graph, begun)
    requires Fits(graph, begun, pass, item) && ApplyItem(graph, known, pass, claims, item).Ok?
    ensures ApplyItem(RenamedAll(graph, graph), known, pass, Mirrored(graph, claims), item) ==
      Ok(Mirrored(graph, ApplyItem(graph, known, pass, claims, item).value))
    ensures begun <= Claimed(ApplyItem(graph, known, pass, claims, item).value) <= graph
  {
    hide NoClash, Late, Apart, LeavesDifferences, Settled, Fits, Step, Ordinary;
    var c := Claimed(claims);
    PrintedAlike(graph, c);
    StepSame(graph, RenamedAll(graph, graph), begun, c, RenamedAll(graph, c), known, pass, item);
    hide RenamedAll, Alike;
    var step := Step(graph, c, known, pass, item);
    if step.value.Some? {
      var claim := step.value.value;
      StepSound(graph, begun, known, pass, claims, item, claim);
      ClaimUnchanged(graph, begun, c, claim.triples);
      ClaimedPlus(claims, claim);
    }
    hide Claimed, Mirrored;
    ItemMirrored(graph, known, pass, claims, item);
  }

  // Passes

  lemma SelectedSame(g: set<Triple>, h: set<Triple>, c: set<Triple>, d: set<Triple>, p: Node)
    requires Alike(g, h, c, d) && Steady(p)
    ensures SubjectsOf(g, p) == SubjectsOf(h, p)
    ensures Candidates(g, c, WithProperty(p)) == Candidates(h, d, WithProperty(p))
  {
    hide Steady, Older;
    forall t: Triple | t.p == p ensures t in g <==> t in h {
      assert Kept(g, t);
    }
  }

  lemma TypedSelected(g: set<Triple>, h: set<Triple>, c: set<Triple>, d: set<Triple>, rdfType: Node)
    requires Alike(g, h, c, d)
    ensures Candidates(g, c, WithType(rdfType)) == Candidates(h, d, WithType(rdfType))
    ensures Candidates(g, c, AnyType) == Candidates(h, d, AnyType)
  {
    hide Steady, Older, TYPE;
    OwnSteady();
    forall t: Triple | t.p == TYPE ensures t in g <==> t in h {
      assert Kept(g, t);
    }
  }

  // What is renamed has been claimed, so the same triples are left.
  lemma LeftSame(graph: set<Triple>, consumed: set<Triple>)
    requires NoClash(graph) && Settled(graph, consumed) && consumed <= graph
    ensures RenamedAll(graph, graph) - RenamedAll(graph, consumed) == graph - consumed
  {
    hide NoClash, Legacy, MEMBERS;
    var h, d := RenamedAll(graph, graph), RenamedAll(graph, consumed);
    forall t | t in graph - consumed ensures t in h - d {
      assert Renamed(graph, t) == t;
      forall u | u in consumed ensures Renamed(graph, u) != t {
        if Renamed(graph, u) == t {
          RenamedInjective(graph, t, u);
        }
      }
    }
    forall t | t in h - d ensures t in graph - consumed {
      var u :| u in graph && Renamed(graph, u) == t;
      assert u !in consumed;
    }
  }

  lemma ItemsSame(graph: set<Triple>, consumed: set<Triple>, pass: Pass)
    requires NoClash(graph) && consumed <= graph && Late(pass) && Apart(pass)
    requires LeavesDifferences(pass) || Settled(graph, consumed)
    ensures Items(RenamedAll(graph, graph), RenamedAll(graph, consumed), pass) == Items(graph, consumed, pass)
  {
    var h, d := RenamedAll(graph, graph), RenamedAll(graph, consumed);
    PrintedAlike(graph, consumed);
    hide NoClash, Settled, Alike, Steady, RenamedAll, PlainProperty, TYPE, ALL_DIFFERENT, NEGATIVE_ASSERTION;
    match pass {
      case BySubject(p, _) => SelectedSame(graph, h, consumed, d, p);
      case ByStatement(WithProperty(p), _) => SelectedSame(graph, h, consumed, d, p);
      case ByStatement(WithType(rdfType), _) => TypedSelected(graph, h, consumed, d, rdfType);
      case ByStatement(AnyType, _) => TypedSelected(graph, h, consumed, d, TYPE);
      case ByStatement(Unclaimed, _) => LeftSame(graph, consumed);
    }
    hide SubjectsOf, Candidates;
  }

  lemma {:induction false} ItemsMirrored(graph: set<Triple>, begun: set<Triple>, known: set<Node>, pass: Pass,
      claims: seq<Proposal>, items: seq<Item>)
    requires NoClash(graph) && begun <= Claimed(claims) <= graph && Late(pass) && Apart(pass)
    requires LeavesDifferences(pass) || Settled(graph, begun)
    requires forall i :: 0 <= i < |items| ==> Fits(graph, begun, pass, items[i])
    requires ApplyItems(graph, known, pass, claims, items).Ok?
    ensures ApplyItems(RenamedAll(graph, graph), known, pass, Mirrored(graph, claims), items) ==
      Ok(Mirrored(graph, ApplyItems(graph, known, pass, claims, items).value))
    decreases |items|
  {
    hide NoClash, Late, Apart, LeavesDifferences, Settled, Fits, ApplyItem, RenamedAll, Mirrored, Claimed;
    if items != [] {
      LateItem(graph, begun, known, pass, claims, items[0]);
      assert forall i :: 0 <= i < |items[1..]| ==> items[1..][i] == items[i + 1];
      ItemsMirrored(graph, begun, known, pass, ApplyItem(graph, known, pass, claims, items[0]).value, items[1..]);
    }
  }

  lemma PassMirrored(graph: set<Triple>, claims: seq<Proposal>, pass: Pass)
    requires NoClash(graph) && Claimed(claims) <= graph && Late(pass) && Apart(pass)
    requires LeavesDifferences(pass) || Settled(graph, Claimed(claims))
    requires ApplyPass(graph, claims, pass).Ok?
    ensures ApplyPass(RenamedAll(graph, graph), Mirrored(graph, claims), pass) ==
      Ok(Mirrored(graph, ApplyPass(graph, claims, pass).value))
  {
    hide NoClash, Late, Apart, LeavesDifferences, Settled;
    MirroredClaims(graph, claims);
    var c := Claimed(claims);
    ItemsFit(graph, c, pass);
    ItemsSame(graph, c, pass);
    hide Items, Claimed, Mirrored, RenamedAll;
    ItemsMirrored(graph, c, Known(pass, ElementsOf(claims)), pass, claims, Items(graph, c, pass));
  }

  lemma {:induction false} PassesMirrored(graph: set<Triple>, claims: seq<Proposal>, passes: seq<Pass>)
    requires NoClash(graph) && Sound(graph, claims)
    requires forall pass :: pass in passes ==> Late(pass) && Apart(pass)
    requires Settled(graph, Claimed(claims)) || forall pass :: pass in passes ==> LeavesDifferences(pass)
    requires ApplyPasses(graph, claims, passes).Ok?
    ensures ApplyPasses(RenamedAll(graph, graph), Mirrored(graph, claims), passes) ==
      Ok(Mirrored(graph, ApplyPasses(graph, claims, passes).value))
    decreases |passes|
  {
    hide NoClash, Late, Apart, LeavesDifferences, Sound, RenamedAll, Mirrored, ApplyPass, Claimed;
    if passes != [] {
      assert passes[0] in passes && forall pass :: pass in passes[1..] ==> pass in passes;
      ClaimedInGraph(graph, claims);
      PassMirrored(graph, claims, passes[0]);
      PassSound(graph, claims, passes[0]);
      PassesMirrored(graph, ApplyPass(graph, claims, passes[0]).value, passes[1..]);
    }
  }

  // The n-ary differences

  // The older list is there under the other name.
  lemma OlderObjects(graph: set<Triple>, s: Node)
    requires NoClash(graph) && Older(graph, s)
    ensures Objects(RenamedAll(graph, graph), s, MEMBERS) == Objects(graph, s, DISTINCT_MEMBERS)
    ensures Objects(RenamedAll(graph, graph), s, DISTINCT_MEMBERS) == {}
  {
    hide NoClash, TYPE, ALL_DIFFERENT, MEMBERS, DISTINCT_MEMBERS;
    OlderAlone(graph, s);
    MembersApart();
    var h := RenamedAll(graph, graph);
    forall o | o in Objects(graph, s, DISTINCT_MEMBERS) ensures Triple(s, MEMBERS, o) in h {
      assert Renamed(graph, Triple(s, DISTINCT_MEMBERS, o)) == Triple(s, MEMBERS, o);
    }
    forall t | t in h && t.s == s ensures t.p != DISTINCT_MEMBERS && (t.p == MEMBERS ==> t.o in Objects(graph, s, DISTINCT_MEMBERS)) {
      var u :| u in graph && Renamed(graph, u) == t;
      assert u.p == MEMBERS && u.s == s ==> u.o in Objects(graph, s, MEMBERS);
    }
  }

  lemma MembersApart()
    ensures MEMBERS != DISTINCT_MEMBERS
  {
    hide Owl, MeaningOf;
    Meanings();
  }

  // The list is walked alike under either name.
  lemma OlderListSame(graph: set<Triple>, consumed: set<Triple>, s: Node)
    requires NoClash(graph) && Older(graph, s) && consumed <= graph
    ensures ListAt(RenamedAll(graph, graph), RenamedAll(graph, consumed), s, MEMBERS) ==
      ListAt(graph, consumed, s, DISTINCT_MEMBERS)
    ensures MembersProperty(graph, s, true) == Ok(DISTINCT_MEMBERS)
    ensures MembersProperty(RenamedAll(graph, graph), s, true) == Ok(MEMBERS)
  {
    var h, d := RenamedAll(graph, graph), RenamedAll(graph, consumed);
    OlderObjects(graph, s);
    OlderAlone(graph, s);
    PrintedAlike(graph, consumed);
    hide NoClash, RenamedAll, Alike, Objects;
    if Value(graph, s, DISTINCT_MEMBERS).Some? {
      WalkSame(graph, h, consumed, d, [], Value(graph, s, DISTINCT_MEMBERS).value);
    }
    hide WalkFrom;
  }

  lemma DifferenceSame(graph: set<Triple>, consumed: set<Triple>, t: Triple, rule: StatementRule)
    requires NoClash(graph) && consumed <= graph && t in graph && t.p == TYPE && t.o == ALL_DIFFERENT
    requires rule.OwnsMembers? && rule.legacy && OwnsMembersStep(graph, consumed, t, rule).Ok?
    ensures var step := OwnsMembersStep(graph, consumed, t, rule);
      OwnsMembersStep(RenamedAll(graph, graph), RenamedAll(graph, consumed), t, rule) ==
      Ok(if step.value.None? then None
         else Some(Proposal(step.value.value.element, RenamedAll(graph, step.value.value.triples))))
  {
    hide NoClash, TYPE, ALL_DIFFERENT, MEMBERS, DISTINCT_MEMBERS;
    var h, d := RenamedAll(graph, graph), RenamedAll(graph, consumed);
    PrintedAlike(graph, consumed);
    OwnSteady();
    TypedSame(graph, h, consumed, d, t);
    hide RenamedAll, Alike, Steady, Older;
    if t !in consumed {
      if Older(graph, t.s) {
        OlderDifference(graph, consumed, t, rule);
      } else {
        ClaimRenamed(graph, consumed, t, rule);
        MembersSame(graph, h, consumed, d, t, rule);
      }
    }
    hide ListAt, MembersProperty, CellTriples;
  }

  lemma OlderDifference(graph: set<Triple>, consumed: set<Triple>, t: Triple, rule: StatementRule)
    requires NoClash(graph) && consumed <= graph && t in graph - consumed && t.p == TYPE && t.o == ALL_DIFFERENT
    requires Older(graph, t.s) && t !in RenamedAll(graph, consumed)
    requires rule.OwnsMembers? && rule.legacy && OwnsMembersStep(graph, consumed, t, rule).Ok?
    ensures var step := OwnsMembersStep(graph, consumed, t, rule);
      step.value.Some? && OwnsMembersStep(RenamedAll(graph, graph), RenamedAll(graph, consumed), t, rule) ==
      Ok(Some(Proposal(step.value.value.element, RenamedAll(graph, step.value.value.triples))))
  {
    hide NoClash, Older, TYPE, ALL_DIFFERENT, MEMBERS, DISTINCT_MEMBERS, RenamedAll, ListAt, MembersProperty;
    hide CellTriples, Has;
    var h, d := RenamedAll(graph, graph), RenamedAll(graph, consumed);
    PrintedAlike(graph, consumed);
    forall cells ensures AllDataProperties(graph, cells) == AllDataProperties(h, cells) {
      DataSame(graph, h, consumed, d, cells);
    }
    hide AllDataProperties, Alike;
    OlderListSame(graph, consumed, t.s);
    ClaimRenamed(graph, consumed, t, rule);
  }

  lemma DataSame(g: set<Triple>, h: set<Triple>, c: set<Triple>, d: set<Triple>, cells: seq<Cell>)
    requires Alike(g, h, c, d)
    ensures AllDataProperties(g, cells) == AllDataProperties(h, cells)
  {
    hide Alike, TYPE;
    OwnSteady();
    forall i | 0 <= i < |cells| ensures Has(g, cells[i].value, TYPE, DATATYPE_PROPERTY) == Has(h, cells[i].value, TYPE, DATATYPE_PROPERTY) {
      ObjectsSame(g, h, c, d, cells[i].value, TYPE);
    }
    hide Has;
  }

  // What the claim on a list of members becomes.
  lemma ClaimRenamed(graph: set<Triple>, consumed: set<Triple>, t: Triple, rule: StatementRule)
    requires t !in consumed && t in graph && t.p == TYPE && t.o == ALL_DIFFERENT
    requires rule.OwnsMembers? && rule.legacy && OwnsMembersStep(graph, consumed, t, rule).Ok?
    ensures var p := MembersProperty(graph, t.s, true).value;
      var (head, cells) := ListAt(graph, consumed, t.s, p).value;
      OwnsMembersStep(graph, consumed, t, rule).value.value.triples == {t, Triple(t.s, p, head)} + CellTriples(cells) &&
      RenamedAll(graph, {t, Triple(t.s, p, head)} + CellTriples(cells)) == {t, Triple(t.s, MEMBERS, head)} + CellTriples(cells)
  {
    hide TYPE, FIRST, REST, ALL_DIFFERENT, MEMBERS, DISTINCT_MEMBERS, CellTriples, Has;
    MembersPropertyFacts(graph, t.s, true);
    var p := MembersProperty(graph, t.s, true).value;
    ListAtExact(graph, consumed, t.s, p);
    var (head, cells) := ListAt(graph, consumed, t.s, p).value;
    hide ListAt, MembersProperty;
    MembersOrdinary(graph, t, p, head, cells);
  }

  lemma DifferenceMirrored(graph: set<Triple>, known: set<Node>, claims: seq<Proposal>, t: Triple)
    requires NoClash(graph) && Claimed(claims) <= graph && t in graph && t.p == TYPE && t.o == ALL_DIFFERENT
    requires ApplyItem(graph, known, Differences(), claims, Stated(t)).Ok?
    ensures ApplyItem(RenamedAll(graph, graph), known, Differences(), Mirrored(graph, claims), Stated(t)) ==
      Ok(Mirrored(graph, ApplyItem(graph, known, Differences(), claims, Stated(t)).value))
    ensures Claimed(ApplyItem(graph, known, Differences(), claims, Stated(t)).value) <= graph
  {
    hide NoClash, TYPE, ALL_DIFFERENT, OwnsMembersStep, RenamedAll;
    var c, rule := Claimed(claims), Differences().claim;
    DifferenceSame(graph, c, t, rule);
    var step := OwnsMembersStep(graph, c, t, rule);
    if step.value.Some? {
      OwnsMembersExact(graph, c, t, rule, step.value.value);
      ClaimedPlus(claims, step.value.value);
    }
    hide Claimed, Mirrored;
    ItemMirrored(graph, known, Differences(), claims, Stated(t));
  }

  lemma {:induction false} DifferencesMirrored(graph: set<Triple>, known: set<Node>, claims: seq<Proposal>, items: seq<Item>)
    requires NoClash(graph) && Claimed(claims) <= graph
    requires forall i :: 0 <= i < |items| ==> items[i].Stated? && Fits(graph, {}, Differences(), items[i])
    requires ApplyItems(graph, known, Differences(), claims, items).Ok?
    ensures ApplyItems(RenamedAll(graph, graph), known, Differences(), Mirrored(graph, claims), items) ==
      Ok(Mirrored(graph, ApplyItems(graph, known, Differences(), claims, items).value))
    decreases |items|
  {
    hide NoClash, ApplyItem, RenamedAll, Mirrored, Claimed, TYPE, ALL_DIFFERENT;
    if items != [] {
      DifferenceMirrored(graph, known, claims, items[0].triple);
      assert forall i :: 0 <= i < |items[1..]| ==> items[1..][i] == items[i + 1];
      hide Fits;
      DifferencesMirrored(graph, known, ApplyItem(graph, known, Differences(), claims, items[0]).value, items[1..]);
    }
  }

  lemma DifferencesPassMirrored(graph: set<Triple>, claims: seq<Proposal>)
    requires NoClash(graph) && Claimed(claims) <= graph && Ordinary(graph, Claimed(claims))
    requires ApplyPass(graph, claims, Differences()).Ok?
    ensures ApplyPass(RenamedAll(graph, graph), Mirrored(graph, claims), Differences()) ==
      Ok(Mirrored(graph, ApplyPass(graph, claims, Differences()).value))
  {
    var h, c := RenamedAll(graph, graph), Claimed(claims);
    MirroredClaims(graph, claims);
    PrintedAlike(graph, c);
    TypedSelected(graph, h, c, RenamedAll(graph, c), ALL_DIFFERENT);
    DifferenceItems(graph, claims);
    assert Items(h, RenamedAll(graph, c), Differences()) == Items(graph, c, Differences()) by { hide Candidates; }
    hide NoClash, Ordinary, Items, Fits, Claimed, Mirrored, RenamedAll, Differences;
    DifferencesMirrored(graph, Known(Differences(), ElementsOf(claims)), claims, Items(graph, c, Differences()));
  }

  // The table

  lemma ExpressionsApart()
    ensures forall pass :: pass in ExpressionPasses() ==> Apart(pass)
  {
    hide Owl, Rdfs, TYPE, MeaningOf;
    Meanings();
  }

  lemma RestrictionsApart()
    ensures forall pass :: pass in RestrictionPasses() ==> Apart(pass)
  {
    hide Owl, Rdfs, TYPE, MeaningOf;
    Meanings();
  }

  lemma ListAxiomsApart()
    ensures forall pass :: pass in ListAxiomPasses() ==> Apart(pass)
  {
    hide Owl, Rdfs, TYPE, MeaningOf;
    Meanings();
  }

  lemma AxiomsApart()
    ensures forall pass :: pass in AxiomPasses() ==> Apart(pass)
  {
    hide Owl, Rdfs, TYPE, MeaningOf;
    Meanings();
  }

  lemma OthersApart()
    ensures forall pass :: pass in CharacteristicPasses() + DeclarationPasses() + AssertionPasses() ==> Apart(pass)
  {
    hide Owl, Rdfs, TYPE;
  }

  lemma FromDifferences(graph: set<Triple>, before: seq<Proposal>, late: seq<Pass>)
    requires NoClash(graph) && Sound(graph, before) && Ordinary(graph, Claimed(before))
    requires forall pass :: pass in late ==> Late(pass) && Apart(pass)
    requires ApplyPasses(graph, before, [Differences()] + late).Ok?
    ensures ApplyPasses(RenamedAll(graph, graph), Mirrored(graph, before), [Differences()] + late) ==
      Ok(Mirrored(graph, ApplyPasses(graph, before, [Differences()] + late).value))
  {
    hide Differences, Late, Apart, ApplyPass, Sound, Ordinary, Settled, NoClash, RenamedAll, Claimed, Mirrored;
    var passes := [Differences()] + late;
    assert passes[0] == Differences() && passes[1..] == late;
    ClaimedInGraph(graph, before);
    DifferencesPass(graph, before);
    DifferencesPassMirrored(graph, before);
    PassesMirrored(graph, ApplyPass(graph, before, Differences()).value, late);
  }

  lemma UpToDifferences(graph: set<Triple>, early: seq<Pass>, rest: seq<Pass>) returns (before: seq<Proposal>)
    requires NoClash(graph) && ApplyPasses(graph, [], early + rest).Ok?
    requires forall pass :: pass in early ==> LeavesDifferences(pass) && Late(pass) && Apart(pass)
    ensures Sound(graph, before) && Ordinary(graph, Claimed(before))
    ensures ApplyPasses(graph, [], early + rest) == ApplyPasses(graph, before, rest)
    ensures ApplyPasses(RenamedAll(graph, graph), [], early + rest) ==
      ApplyPasses(RenamedAll(graph, graph), Mirrored(graph, before), rest)
  {
    NothingClaimed(graph);
    assert Mirrored(graph, []) == [];
    hide LeavesDifferences, Late, Apart, Sound, Ordinary, Settled, NoClash, RenamedAll, Claimed, Mirrored;
    hide ApplyPasses;
    PassesConcat(graph, [], early, rest);
    before := ApplyPasses(graph, [], early).value;
    PassesConcat(RenamedAll(graph, graph), [], early, rest);
    PassesSound(graph, [], early);
    PassesMirrored(graph, [], early);
  }

  // All passes take the same steps on the printed graph.
  lemma AllPassesMirrored(graph: set<Triple>)
    requires NoClash(graph) && ApplyPasses(graph, [], AllPasses()).Ok?
    ensures ApplyPasses(RenamedAll(graph, graph), [], AllPasses()) ==
      Ok(Mirrored(graph, ApplyPasses(graph, [], AllPasses()).value))
  {
    var early, late := Phases();
    hide AllPasses, Differences, LeavesDifferences, Late, Apart, Sound, Ordinary, NoClash, RenamedAll, Claimed;
    hide Mirrored, ApplyPasses;
    var before := UpToDifferences(graph, early, [Differences()] + late);
    FromDifferences(graph, before, late);
  }

  lemma Phases() returns (early: seq<Pass>, late: seq<Pass>)
    ensures AllPasses() == early + ([Differences()] + late)
    ensures forall pass :: pass in early ==> LeavesDifferences(pass) && Late(pass) && Apart(pass)
    ensures forall pass :: pass in late ==> Late(pass) && Apart(pass)
  {
    early := ExpressionPasses() + RestrictionPasses() + ListAxiomPasses();
    late := AxiomPasses() + (CharacteristicPasses() + DeclarationPasses() + AssertionPasses());
    ExpressionsPlain();
    RestrictionsPlain();
    ListAxiomsPlain();
    AxiomsPlain();
    CharacteristicsPlain();
    DeclarationsPlain();
    AssertionsLate();
    ExpressionsApart();
    RestrictionsApart();
    ListAxiomsApart();
    AxiomsApart();
    OthersApart();
    hide ExpressionPasses, RestrictionPasses, ListAxiomPasses, Differences, AxiomPasses, CharacteristicPasses;
    hide DeclarationPasses, AssertionPasses, LeavesDifferences, Apart;
  }

  lemma PassesOfLift(graph: set<Triple>) returns (claims: seq<Proposal>)
    requires Lift(graph).Ok?
    ensures ApplyPasses(graph, [], AllPasses()) == Ok(claims) && NoClash(graph)
  {
    hide AllPasses, StableSort, NoClash, Sound, ApplyPasses;
    claims := ApplyPasses(graph, [], AllPasses()).value;
    AllPassesSound(graph, claims);
  }

  lemma RenamedWellFormed(graph: set<Triple>, claimed: set<Triple>)
    requires WellFormed(graph) && graph <= claimed
    ensures WellFormed(RenamedAll(graph, graph)) && RenamedAll(graph, graph) <= RenamedAll(graph, claimed)
  {
  }

  lemma PrintedLifts(graph: set<Triple>)
    requires Lift(graph).Ok?
    ensures Lift(RenamedAll(graph, graph)) == Lift(graph)
  {
    hide Lift, ApplyPasses, AllPasses, Claimed, ElementsOf, Mirrored, RenamedAll, WellFormed, NoClash, StableSort;
    var claims := PassesOfLift(graph);
    LiftIff(graph, claims);
    RenamedWellFormed(graph, Claimed(claims));
    AllPassesMirrored(graph);
    MirroredClaims(graph, claims);
    LiftIff(RenamedAll(graph, graph), Mirrored(graph, claims));
  }

  // Whatever lifts: lifting what its elements print gives the same elements.
  // They print the graph itself if and only if it has no older lists.
  lemma LiftRoundTrip(graph: set<Triple>)
    requires Lift(graph).Ok?
    ensures Lift(Printed(Lift(graph).value)) == Lift(graph)
    ensures Printed(Lift(graph).value) == graph <==> forall t :: t in graph ==> !Legacy(graph, t)
  {
    hide Lift, Printed, Disjointly;
    LiftIsPartition(graph);
    PrintedLifts(graph);
    RenamedGraph(graph);
  }

  lemma RenamedGraph(graph: set<Triple>)
    ensures (forall t :: t in graph ==> !Legacy(graph, t)) <==> RenamedAll(graph, graph) == graph
  {
    MembersApart();
    if forall t :: t in graph ==> !Legacy(graph, t) {
      OrdinaryUnchanged(graph, graph);
    }
  }
}
