// The graph lifter: passes that claim triples for elements, in order, until
// nothing is left.
module Lifting {
  import opened Rdf
  import opened RdfLists
  import opened Ordering
  import opened Kinds
  import opened Elements
  import opened Passes

  function Candidates(graph: set<Triple>, consumed: set<Triple>, source: Source): set<Triple> {
    match source
    case WithProperty(p) => set t | t in graph && t.p == p
    case WithType(rdfType) => set t | t in graph && t.p == TYPE && t.o == rdfType
    case AnyType => set t | t in graph && t.p == TYPE
    case Unclaimed => graph - consumed
  }

  function SubjectsOf(graph: set<Triple>, p: Node): set<Node> {
    set t | t in graph && t.p == p :: t.s
  }

  function AllNamed(nodes: seq<Node>): seq<Item> {
    seq(|nodes|, i requires 0 <= i < |nodes| => Named(nodes[i]))
  }

  function AllStated(triples: seq<Triple>): seq<Item> {
    seq(|triples|, i requires 0 <= i < |triples| => Stated(triples[i]))
  }

  // What a pass works through, in the order of the sort keys.
  ghost function Items(graph: set<Triple>, consumed: set<Triple>, pass: Pass): seq<Item> {
    NodesOrdered();
    TriplesOrdered();
    match pass
    case BySubject(p, _) => AllNamed(Sorted(SubjectsOf(graph, p), NodeLe))
    case ByStatement(source, _) => AllStated(Sorted(Candidates(graph, consumed, source), TripleLe))
  }

  function Claimed(claims: seq<Proposal>): set<Triple> {
    set i, t | 0 <= i < |claims| && t in claims[i].triples :: t
  }

  function ElementsOf(claims: seq<Proposal>): seq<Element> {
    seq(|claims|, i requires 0 <= i < |claims| => claims[i].element)
  }

  type Claims = Result<seq<Proposal>, LiftError>

  // A claim on a triple that is taken is an error.
  function ApplyItem(graph: set<Triple>, known: set<Node>, pass: Pass, claims: seq<Proposal>, item: Item): Claims {
    match Step(graph, Claimed(claims), known, pass, item)
    case Err(e) => Err(e)
    case Ok(None) => Ok(claims)
    case Ok(Some(claim)) => if claim.triples !! Claimed(claims) then Ok(claims + [claim]) else Err(Malformed)
  }

  function ApplyItems(graph: set<Triple>, known: set<Node>, pass: Pass, claims: seq<Proposal>, items: seq<Item>): Claims
    decreases |items|
  {
    if items == [] then Ok(claims)
    else
      match ApplyItem(graph, known, pass, claims, items[0])
      case Err(e) => Err(e)
      case Ok(more) => ApplyItems(graph, known, pass, more, items[1..])
  }

  ghost function ApplyPass(graph: set<Triple>, claims: seq<Proposal>, pass: Pass): Claims {
    ApplyItems(graph, Known(pass, ElementsOf(claims)), pass, claims, Items(graph, Claimed(claims), pass))
  }

  ghost function ApplyPasses(graph: set<Triple>, claims: seq<Proposal>, passes: seq<Pass>): Claims
    decreases |passes|
  {
    if passes == [] then Ok(claims)
    else
      match ApplyPass(graph, claims, passes[0])
      case Err(e) => Err(e)
      case Ok(more) => ApplyPasses(graph, more, passes[1..])
  }

  function AllPasses(): seq<Pass> {
    ExpressionPasses() + RestrictionPasses() + ListAxiomPasses() + [Differences()] + AxiomPasses() +
    CharacteristicPasses() + DeclarationPasses() + AssertionPasses()
  }

  // Every subject and every predicate is a resource.
  predicate WellFormed(graph: set<Triple>) {
    forall t :: t in graph ==> IsResource(t.s) && IsResource(t.p)
  }

  // The result as a function of the set of triples alone: neither the order
  // of the graph nor that of any set has a part in it.
  ghost function Lift(graph: set<Triple>): Result<seq<Element>, LiftError> {
    if !WellFormed(graph) then Err(Malformed)
    else
      match ApplyPasses(graph, [], AllPasses())
      case Err(e) => Err(e)
      case Ok(claims) =>
        if graph <= Claimed(claims) then Ok(StableSort(ElementsOf(claims), SortKey)) else Err(Unsupported)
  }

  // What lifting depends on once the passes have run.
  lemma LiftIff(graph: set<Triple>, claims: seq<Proposal>)
    requires ApplyPasses(graph, [], AllPasses()) == Ok(claims)
    ensures Lift(graph).Ok? <==> WellFormed(graph) && graph <= Claimed(claims)
    ensures Lift(graph).Ok? ==> Lift(graph).value == StableSort(ElementsOf(claims), SortKey)
  {
    hide ApplyPasses, AllPasses, StableSort, Claimed, ElementsOf, WellFormed;
  }

  lemma ClaimedPlus(claims: seq<Proposal>, claim: Proposal)
    ensures Claimed(claims + [claim]) == Claimed(claims) + claim.triples
    ensures ElementsOf(claims + [claim]) == ElementsOf(claims) + [claim.element]
  {
    forall t | t in Claimed(claims) ensures t in Claimed(claims + [claim]) {
      var i :| 0 <= i < |claims| && t in claims[i].triples;
      assert (claims + [claim])[i] == claims[i];
    }
    assert (claims + [claim])[|claims|] == claim;
  }

  class Axiomatizer {
    const graph: set<Triple>
    var consumed: set<Triple>
    var elements: seq<Element>
    // Which triples each element claimed.
    ghost var claims: seq<Proposal>

    ghost predicate Valid()
      reads this
    {
      consumed == Claimed(claims) && elements == ElementsOf(claims)
    }

    constructor (graph: set<Triple>)
      ensures Valid() && this.graph == graph && claims == []
    {
      this.graph := graph;
      consumed, elements, claims := {}, [], [];
    }

    method AddElement(claim: Proposal) returns (added: bool)
      requires Valid()
      modifies this
      ensures Valid() && added == (claim.triples !! old(consumed))
      ensures claims == if added then old(claims) + [claim] else old(claims)
    {
      added := claim.triples !! consumed;
      if added {
        ClaimedPlus(claims, claim);
        claims := claims + [claim];
        consumed := consumed + claim.triples;
        elements := elements + [claim.element];
      }
    }

    method RunItem(known: set<Node>, pass: Pass, item: Item) returns (error: Option<LiftError>)
      requires Valid()
      modifies this
      ensures Valid()
      ensures match ApplyItem(graph, known, pass, old(claims), item) {
        case Ok(more) => error == None && claims == more
        case Err(e) => error == Some(e)
      }
    {
      hide Step;
      match Step(graph, consumed, known, pass, item) {
        case Err(e) => return Some(e);
        case Ok(None) => return None;
        case Ok(Some(claim)) =>
          var added := AddElement(claim);
          return if added then None else Some(Malformed);
      }
    }

    method RunPass(pass: Pass) returns (error: Option<LiftError>)
      requires Valid()
      modifies this
      ensures Valid()
      ensures match ApplyPass(graph, old(claims), pass) {
        case Ok(more) => error == None && claims == more
        case Err(e) => error == Some(e)
      }
    {
      hide ApplyItem, Known;
      var known := Known(pass, elements);
      var items := ItemsOf(pass);
      for i := 0 to |items|
        invariant Valid()
        invariant ApplyPass(graph, old(claims), pass) == ApplyItems(graph, known, pass, claims, items[i..])
      {
        assert items[i..][0] == items[i] && items[i..][1..] == items[i + 1..];
        error := RunItem(known, pass, items[i]);
        if error.Some? {
          return;
        }
      }
      error := None;
    }

    // Whatever order the sets are met in, sorting yields the same items.
    method ItemsOf(pass: Pass) returns (items: seq<Item>)
      requires Valid()
      ensures items == Items(graph, consumed, pass)
    {
      match pass {
        case BySubject(p, _) =>
          NodesOrdered();
          var nodes := SortSet(SubjectsOf(graph, p), NodeLe);
          SortingIsUnique(nodes, Sorted(SubjectsOf(graph, p), NodeLe), SubjectsOf(graph, p), NodeLe);
          items := AllNamed(nodes);
        case ByStatement(source, _) =>
          TriplesOrdered();
          var found := Candidates(graph, consumed, source);
          var triples := SortSet(found, TripleLe);
          SortingIsUnique(triples, Sorted(found, TripleLe), found, TripleLe);
          items := AllStated(triples);
      }
    }

    method Run() returns (r: Result<seq<Element>, LiftError>)
      requires Valid() && claims == [] && WellFormed(graph)
      modifies this
      ensures r == Lift(graph)
    {
      hide ApplyPass, AllPasses, StableSort;
      var passes := AllPasses();
      for i := 0 to |passes|
        invariant Valid()
        invariant ApplyPasses(graph, [], passes) == ApplyPasses(graph, claims, passes[i..])
      {
        assert passes[i..][0] == passes[i] && passes[i..][1..] == passes[i + 1..];
        var error := RunPass(passes[i]);
        if error.Some? {
          return Err(error.value);
        }
      }
      if graph <= consumed {
        return Ok(StableSort(elements, SortKey));
      }
      return Err(Unsupported);
    }
  }

  // Lifting a graph. Only the set of its triples matters.
  method Axiomatize(graph: set<Triple>) returns (r: Result<seq<Element>, LiftError>)
    ensures r == Lift(graph)
  {
    if !WellFormed(graph) {
      return Err(Malformed);
    }
    var lifter := new Axiomatizer(graph);
    r := lifter.Run();
  }
}
