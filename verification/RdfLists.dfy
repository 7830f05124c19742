// Linked lists in RDF graphs: the walker of the graph lifter, the list
// fragment that structural elements own, and its two readers.
module RdfLists {
  import opened Rdf

  const RDF_NS := "http://www.w3.org/1999/02/22-rdf-syntax-ns#"
  const FIRST := IRI(RDF_NS + "first")
  const REST := IRI(RDF_NS + "rest")
  const NIL := IRI(RDF_NS + "nil")

  lemma FirstIsNotRest()
    ensures FIRST != REST
  {
    assert |FIRST.value| != |REST.value|;
  }

  // The list fragment

  // One list cell; the last row is nil and has no value.
  datatype Entry = Entry(cell: Node, value: Option<Node>)

  datatype Seq = Seq(entries: seq<Entry>)
  {
    // The validators of the entries and of the whole.
    ghost predicate Valid() {
      && entries != [] && entries[|entries| - 1].cell == NIL
      && (forall i, j :: 0 <= i < j < |entries| ==> entries[i].cell != entries[j].cell)
      && forall i :: 0 <= i < |entries| ==> (entries[i].cell == NIL <==> entries[i].value == None) && IsResource(entries[i].cell)
    }

    function Name(): Node
      requires entries != []
    {
      entries[0].cell
    }

    function Values(): seq<Node> {
      ValuesOf(entries)
    }

    function Tail(i: nat): Node
      requires i + 1 < |entries|
    {
      entries[i + 1].cell
    }

    function AsTriples(): set<Triple> {
      (set i | 0 <= i < |entries| && entries[i].value.Some? :: Triple(entries[i].cell, FIRST, entries[i].value.value)) +
      (set i | 0 <= i < |entries| - 1 :: Triple(entries[i].cell, REST, Tail(i)))
    }
  }

  function ValuesOf(entries: seq<Entry>): seq<Node> {
    if entries == [] then []
    else (if entries[0].value.Some? then [entries[0].value.value] else []) + ValuesOf(entries[1..])
  }

  // The walker

  datatype Cell = Cell(cell: Node, value: Node)

  datatype WalkError = Cycle | Shared | FirstCount | RestCount | Owned | LiteralRest

  function Objects(graph: set<Triple>, s: Node, p: Node): set<Node> {
    set t | t in graph && t.s == s && t.p == p :: t.o
  }

  function Incoming(graph: set<Triple>, cell: Node): set<Node> {
    set t | t in graph && t.p == REST && t.o == cell :: t.s
  }

  lemma SingletonUnique<T>(s: set<T>)
    requires |s| == 1
    ensures forall x, y :: x in s && y in s ==> x == y
  {
    forall x | x in s ensures s == {x} {
      assert |s - {x}| == 0;
      assert s == (s - {x}) + {x};
    }
  }

  function The<T>(s: set<T>): (x: T)
    requires |s| == 1
    ensures s == {x}
  {
    SingletonUnique(s);
    var x :| x in s;
    x
  }

  function CellNodes(cells: seq<Cell>): set<Node> {
    set i | 0 <= i < |cells| :: cells[i].cell
  }

  function RestSubjects(graph: set<Triple>): set<Node> {
    set t | t in graph && t.p == REST :: t.s
  }

  // The checks on one cell, in their order. The cells visited so far include
  // the one that led here.
  function CheckCell(graph: set<Triple>, consumed: set<Triple>, cells: seq<Cell>,
      current: Node): Result<(Node, Node), WalkError> {
    if current in CellNodes(cells) then Err(Cycle)
    else if Incoming(graph, current) != (if cells == [] then {} else {cells[|cells| - 1].cell}) then Err(Shared)
    else if |Objects(graph, current, FIRST)| != 1 then Err(FirstCount)
    else if |Objects(graph, current, REST)| != 1 then Err(RestCount)
    else
      var first, rest := The(Objects(graph, current, FIRST)), The(Objects(graph, current, REST));
      if Triple(current, FIRST, first) in consumed || Triple(current, REST, rest) in consumed then Err(Owned)
      else if !IsResource(rest) then Err(LiteralRest)
      else Ok((first, rest))
  }

  lemma CheckedCell(graph: set<Triple>, consumed: set<Triple>, cells: seq<Cell>, current: Node)
    requires CheckCell(graph, consumed, cells, current).Ok?
    ensures var (first, rest) := CheckCell(graph, consumed, cells, current).value;
      && Objects(graph, current, FIRST) == {first} && Objects(graph, current, REST) == {rest} && IsResource(rest)
      && Triple(current, FIRST, first) in graph - consumed && Triple(current, REST, rest) in graph - consumed
      && Incoming(graph, current) == (if cells == [] then {} else {cells[|cells| - 1].cell})
      && current in RestSubjects(graph) && current !in CellNodes(cells)
  {
    var (first, rest) := CheckCell(graph, consumed, cells, current).value;
    assert first in Objects(graph, current, FIRST) && rest in Objects(graph, current, REST);
  }

  lemma CellNodesPlus(cells: seq<Cell>, c: Cell)
    ensures CellNodes(cells + [c]) == CellNodes(cells) + {c.cell}
  {
    forall n | n in CellNodes(cells) ensures n in CellNodes(cells + [c]) {
      var i :| 0 <= i < |cells| && cells[i].cell == n;
      assert (cells + [c])[i] == cells[i];
    }
    assert (cells + [c])[|cells|] == c;
  }

  lemma FewerLeft(graph: set<Triple>, cells: seq<Cell>, c: Cell)
    requires c.cell in RestSubjects(graph) && c.cell !in CellNodes(cells)
    ensures |RestSubjects(graph) - CellNodes(cells + [c])| < |RestSubjects(graph) - CellNodes(cells)|
  {
    CellNodesPlus(cells, c);
    assert RestSubjects(graph) - CellNodes(cells) == (RestSubjects(graph) - CellNodes(cells + [c])) + {c.cell};
  }

  // The rest of the walk. It ends on every graph, because each step visits
  // another subject of a rest triple.
  function WalkFrom(graph: set<Triple>, consumed: set<Triple>, cells: seq<Cell>,
      current: Node): Result<seq<Cell>, WalkError>
    decreases |RestSubjects(graph) - CellNodes(cells)|
  {
    if current == NIL then Ok(cells)
    else
      var checked := CheckCell(graph, consumed, cells, current);
      if checked.Err? then Err(checked.error)
      else
        var c := Cell(current, checked.value.0);
        CheckedCell(graph, consumed, cells, current);
        FewerLeft(graph, cells, c);
        WalkFrom(graph, consumed, cells + [c], checked.value.1)
  }

  function Walk(graph: set<Triple>, consumed: set<Triple>, head: Node): Result<seq<Cell>, WalkError> {
    WalkFrom(graph, consumed, [], head)
  }

  function Following(cells: seq<Cell>, current: Node, i: nat): Node
    requires i < |cells|
  {
    if i + 1 < |cells| then cells[i + 1].cell else current
  }

  // The triples of cells that lead to the current node.
  function Traced(cells: seq<Cell>, current: Node): set<Triple> {
    (set i | 0 <= i < |cells| :: Triple(cells[i].cell, FIRST, cells[i].value)) +
    (set i | 0 <= i < |cells| :: Triple(cells[i].cell, REST, Following(cells, current, i)))
  }

  function CellTriples(cells: seq<Cell>): set<Triple> {
    Traced(cells, NIL)
  }

  method WalkRdfList(graph: set<Triple>, consumed: set<Triple>, head: Node)
    returns (r: Result<(seq<Cell>, set<Triple>), WalkError>)
    ensures r.Ok? <==> Walk(graph, consumed, head).Ok?
    ensures r.Ok? ==> r.value.0 == Walk(graph, consumed, head).value && r.value.1 == CellTriples(r.value.0)
    ensures r.Err? ==> r.error == Walk(graph, consumed, head).error
  {
    if head == NIL {
      return Ok(([], {}));
    }
    var cells, triples := [], {};
    var current := head;
    while current != NIL
      invariant Walk(graph, consumed, head) == WalkFrom(graph, consumed, cells, current)
      invariant Linked(graph, consumed, cells, current)
      invariant triples == Traced(cells, current)
      decreases |RestSubjects(graph) - CellNodes(cells)|
    {
      var checked := CheckCell(graph, consumed, cells, current);
      if checked.Err? {
        return Err(checked.error);
      }
      var (first, rest) := checked.value;
      CheckedCell(graph, consumed, cells, current);
      FewerLeft(graph, cells, Cell(current, first));
      TracedPlus(cells, current, first, rest);
      LinkedPlus(graph, consumed, cells, current, first, rest);
      cells := cells + [Cell(current, first)];
      triples := triples + {Triple(current, FIRST, first), Triple(current, REST, rest)};
      current := rest;
    }
    return Ok((cells, triples));
  }

  // The visited cells form a chain that leads to the current node. Each has
  // one value, one successor, and no predecessor but the cell before it.
  ghost predicate Linked(graph: set<Triple>, consumed: set<Triple>, cells: seq<Cell>, current: Node) {
    && (forall i, j :: 0 <= i < j < |cells| ==> cells[i].cell != cells[j].cell)
    && (forall i :: 0 <= i < |cells| ==> LinkedCell(graph, consumed, cells, current, i))
  }

  ghost predicate LinkedCell(graph: set<Triple>, consumed: set<Triple>, cells: seq<Cell>, current: Node, i: nat)
    requires i < |cells|
  {
    && cells[i].cell != NIL
    && Objects(graph, cells[i].cell, FIRST) == {cells[i].value}
    && Objects(graph, cells[i].cell, REST) == {Following(cells, current, i)}
    && Incoming(graph, cells[i].cell) == (if i == 0 then {} else {cells[i - 1].cell})
    && Triple(cells[i].cell, FIRST, cells[i].value) in graph - consumed
    && Triple(cells[i].cell, REST, Following(cells, current, i)) in graph - consumed
    && IsResource(Following(cells, current, i))
  }

  lemma TracedPlus(cells: seq<Cell>, current: Node, first: Node, rest: Node)
    ensures Traced(cells + [Cell(current, first)], rest) ==
      Traced(cells, current) + {Triple(current, FIRST, first), Triple(current, REST, rest)}
  {
    var more := cells + [Cell(current, first)];
    forall t | t in Traced(cells, current) ensures t in Traced(more, rest) {
      var i :| 0 <= i < |cells| &&
        (t == Triple(cells[i].cell, FIRST, cells[i].value) || t == Triple(cells[i].cell, REST, Following(cells, current, i)));
      assert more[i] == cells[i] && Following(more, rest, i) == Following(cells, current, i);
    }
    assert more[|cells|] == Cell(current, first) && Following(more, rest, |cells|) == rest;
    forall t | t in Traced(more, rest)
      ensures t in Traced(cells, current) + {Triple(current, FIRST, first), Triple(current, REST, rest)}
    {
      var i :| 0 <= i < |more| &&
        (t == Triple(more[i].cell, FIRST, more[i].value) || t == Triple(more[i].cell, REST, Following(more, rest, i)));
      if i < |cells| {
        assert more[i] == cells[i] && Following(more, rest, i) == Following(cells, current, i);
      }
    }
  }

  lemma LinkedPlus(graph: set<Triple>, consumed: set<Triple>, cells: seq<Cell>, current: Node, first: Node, rest: Node)
    requires Linked(graph, consumed, cells, current) && current != NIL
    requires CheckCell(graph, consumed, cells, current) == Ok((first, rest))
    ensures Linked(graph, consumed, cells + [Cell(current, first)], rest)
  {
    CheckedCell(graph, consumed, cells, current);
    var more := cells + [Cell(current, first)];
    forall i | 0 <= i < |more| ensures LinkedCell(graph, consumed, more, rest, i) {
      if i < |cells| {
        assert LinkedCell(graph, consumed, cells, current, i);
        assert Following(more, rest, i) == Following(cells, current, i);
      }
    }
    forall i, j | 0 <= i < j < |more| ensures more[i].cell != more[j].cell {
      if j == |cells| {
        assert cells[i].cell in CellNodes(cells);
      }
    }
  }

  // What the walker accepts

  lemma {:induction false} WalkLinked(graph: set<Triple>, consumed: set<Triple>, cells: seq<Cell>, current: Node)
    requires Linked(graph, consumed, cells, current)
    ensures WalkFrom(graph, consumed, cells, current).Ok? ==>
      Linked(graph, consumed, WalkFrom(graph, consumed, cells, current).value, NIL) && cells <= WalkFrom(graph, consumed, cells, current).value
    ensures WalkFrom(graph, consumed, cells, current).Err? ==> WalkFrom(graph, consumed, cells, current).error != Cycle
    decreases |RestSubjects(graph) - CellNodes(cells)|
  {
    if current != NIL {
      var checked := CheckCell(graph, consumed, cells, current);
      NoCycle(graph, consumed, cells, current);
      if checked.Ok? {
        var (first, rest) := checked.value;
        CheckedCell(graph, consumed, cells, current);
        FewerLeft(graph, cells, Cell(current, first));
        LinkedPlus(graph, consumed, cells, current, first, rest);
        WalkLinked(graph, consumed, cells + [Cell(current, first)], rest);
      }
    }
  }

  // A chain cannot lead back into itself: the cell it would come back to has
  // no predecessor but its own.
  lemma NoCycle(graph: set<Triple>, consumed: set<Triple>, cells: seq<Cell>, current: Node)
    requires Linked(graph, consumed, cells, current)
    ensures current !in CellNodes(cells)
  {
    if cells != [] {
      var last := |cells| - 1;
      assert LinkedCell(graph, consumed, cells, current, last);
      assert Triple(cells[last].cell, REST, current) in graph;
      assert cells[last].cell in Incoming(graph, current);
      forall i | 0 <= i < |cells| ensures cells[i].cell != current {
        assert LinkedCell(graph, consumed, cells, current, i);
        assert cells[last].cell !in Incoming(graph, cells[i].cell);
      }
    }
  }

  // On success the cells are distinct, linked from the head to nil, and the
  // triples are exactly their first and rest triples, none of them consumed.
  lemma WalkIsExact(graph: set<Triple>, consumed: set<Triple>, head: Node)
    requires Walk(graph, consumed, head).Ok?
    ensures var cells := Walk(graph, consumed, head).value;
      && Linked(graph, consumed, cells, NIL)
      && (cells == [] <==> head == NIL) && (cells != [] ==> cells[0].cell == head)
      && CellTriples(cells) <= graph - consumed
      && forall t :: t in CellTriples(cells) <==> t in graph && (t.p == FIRST || t.p == REST) && t.s in CellNodes(cells)
  {
    WalkLinked(graph, consumed, [], head);
    var cells := Walk(graph, consumed, head).value;
    WalkStarts(graph, consumed, head);
    hide Walk, Linked, CellTriples;
    forall t ensures t in CellTriples(cells) <==> t in graph && (t.p == FIRST || t.p == REST) && t.s in CellNodes(cells) {
      if t in CellTriples(cells) {
        CellTripleFound(graph, consumed, cells, t);
      } else if t in graph && (t.p == FIRST || t.p == REST) && t.s in CellNodes(cells) {
        OnlyCellTriples(graph, consumed, cells, t);
      }
    }
    forall t | t in CellTriples(cells) ensures t in graph - consumed { CellTripleFound(graph, consumed, cells, t); }
  }

  lemma WalkStarts(graph: set<Triple>, consumed: set<Triple>, head: Node)
    requires Walk(graph, consumed, head).Ok?
    ensures var cells := Walk(graph, consumed, head).value;
      (cells == [] <==> head == NIL) && (cells != [] ==> cells[0].cell == head)
  {
    hide FIRST, REST, NIL;
    if head != NIL {
      var (first, rest) := CheckCell(graph, consumed, [], head).value;
      CheckedCell(graph, consumed, [], head);
      LinkedPlus(graph, consumed, [], head, first, rest);
      WalkLinked(graph, consumed, [] + [Cell(head, first)], rest);
      assert Walk(graph, consumed, head).value[0] == Cell(head, first);
    }
  }

  lemma CellTripleFound(graph: set<Triple>, consumed: set<Triple>, cells: seq<Cell>, t: Triple)
    requires Linked(graph, consumed, cells, NIL) && t in CellTriples(cells)
    ensures t in graph - consumed && (t.p == FIRST || t.p == REST) && t.s in CellNodes(cells)
  {
    hide FIRST, REST, NIL;
    var i :| 0 <= i < |cells| && (t == Triple(cells[i].cell, FIRST, cells[i].value) ||
      t == Triple(cells[i].cell, REST, Following(cells, NIL, i)));
    assert LinkedCell(graph, consumed, cells, NIL, i);
  }

  lemma OnlyCellTriples(graph: set<Triple>, consumed: set<Triple>, cells: seq<Cell>, t: Triple)
    requires Linked(graph, consumed, cells, NIL)
    requires t in graph && (t.p == FIRST || t.p == REST) && t.s in CellNodes(cells)
    ensures t in CellTriples(cells)
  {
    hide FIRST, REST, NIL;
    var i :| 0 <= i < |cells| && cells[i].cell == t.s;
    assert LinkedCell(graph, consumed, cells, NIL, i);
    assert t.o in Objects(graph, t.s, t.p);
  }

  // The walker terminates without ever seeing a cycle: a cyclic list is
  // rejected for a shared or owned cell before its first cell comes up again.
  lemma CycleIsNeverReported(graph: set<Triple>, consumed: set<Triple>, head: Node)
    ensures Walk(graph, consumed, head) != Err(Cycle)
  {
    WalkLinked(graph, consumed, [], head);
  }

  // Where the walk breaks off

  // The walk has come from the head over these cells to this node.
  ghost predicate StandsOn(graph: set<Triple>, consumed: set<Triple>, head: Node, cells: seq<Cell>, node: Node) {
    Linked(graph, consumed, cells, node) && head == (if cells == [] then node else cells[0].cell)
  }

  // Nothing has the node as its rest but the cell before it.
  ghost predicate Unshared(graph: set<Triple>, cells: seq<Cell>, node: Node) {
    forall s :: Triple(s, REST, node) in graph <==> cells != [] && s == cells[|cells| - 1].cell
  }

  ghost predicate SingleValued(graph: set<Triple>, s: Node, p: Node) {
    exists o :: Triple(s, p, o) in graph && forall x :: Triple(s, p, x) in graph ==> x == o
  }

  ghost predicate Spent(graph: set<Triple>, consumed: set<Triple>, node: Node) {
    exists t :: t in graph && t.s == node && (t.p == FIRST || t.p == REST) && t in consumed
  }

  // What is wrong with the node. An earlier fault hides a later one.
  ghost predicate FaultAt(graph: set<Triple>, consumed: set<Triple>, cells: seq<Cell>, node: Node, error: WalkError) {
    var first, rest := SingleValued(graph, node, FIRST), SingleValued(graph, node, REST);
    match error
    case Cycle => false
    case Shared => !Unshared(graph, cells, node)
    case FirstCount => Unshared(graph, cells, node) && !first
    case RestCount => Unshared(graph, cells, node) && first && !rest
    case Owned => Unshared(graph, cells, node) && first && rest && Spent(graph, consumed, node)
    case LiteralRest =>
      && Unshared(graph, cells, node) && first && rest && !Spent(graph, consumed, node)
      && exists o :: Triple(node, REST, o) in graph && o.Literal?
  }

  ghost predicate BreaksAt(graph: set<Triple>, consumed: set<Triple>, head: Node, cells: seq<Cell>, node: Node,
      error: WalkError) {
    StandsOn(graph, consumed, head, cells, node) && node != NIL && FaultAt(graph, consumed, cells, node, error)
  }

  ghost predicate BreaksOff(graph: set<Triple>, consumed: set<Triple>, head: Node, error: WalkError) {
    exists cells, node :: BreaksAt(graph, consumed, head, cells, node, error)
  }

  lemma CountIsSingle(graph: set<Triple>, s: Node, p: Node)
    ensures |Objects(graph, s, p)| == 1 <==> SingleValued(graph, s, p)
  {
    var values := Objects(graph, s, p);
    if |values| == 1 {
      var o := The(values);
      assert Triple(s, p, o) in graph;
      forall x | Triple(s, p, x) in graph ensures x == o {
        assert x in values;
      }
    }
    if SingleValued(graph, s, p) {
      var o :| Triple(s, p, o) in graph && forall x :: Triple(s, p, x) in graph ==> x == o;
      assert values == {o};
    }
  }

  lemma IncomingIsUnshared(graph: set<Triple>, cells: seq<Cell>, node: Node)
    ensures Incoming(graph, node) == (if cells == [] then {} else {cells[|cells| - 1].cell}) <==> Unshared(graph, cells, node)
  {
    var before := if cells == [] then {} else {cells[|cells| - 1].cell};
    assert forall s :: Triple(s, REST, node) in graph <==> s in Incoming(graph, node);
    if Unshared(graph, cells, node) {
      assert Incoming(graph, node) == before;
    }
  }

  lemma CheckIsFault(graph: set<Triple>, consumed: set<Triple>, cells: seq<Cell>, node: Node, error: WalkError)
    requires node !in CellNodes(cells)
    ensures CheckCell(graph, consumed, cells, node) == Err(error) <==> FaultAt(graph, consumed, cells, node, error)
  {
    IncomingIsUnshared(graph, cells, node);
    CountIsSingle(graph, node, FIRST);
    CountIsSingle(graph, node, REST);
    var firsts, rests := Objects(graph, node, FIRST), Objects(graph, node, REST);
    hide Unshared, SingleValued, Incoming;
    if |firsts| == 1 && |rests| == 1 {
      var first, rest := The(firsts), The(rests);
      assert first in firsts && rest in rests;
      assert forall o :: Triple(node, FIRST, o) in graph ==> o in firsts;
      assert forall o :: Triple(node, REST, o) in graph ==> o in rests;
      assert Spent(graph, consumed, node) <==>
          Triple(node, FIRST, first) in consumed || Triple(node, REST, rest) in consumed;
      assert (exists o :: Triple(node, REST, o) in graph && o.Literal?) <==> rest.Literal?;
    }
  }

  // The walk gets to every node it can stand on.
  lemma {:induction false} WalkArrives(graph: set<Triple>, consumed: set<Triple>, head: Node, cells: seq<Cell>,
      node: Node)
    requires StandsOn(graph, consumed, head, cells, node)
    ensures Walk(graph, consumed, head) == WalkFrom(graph, consumed, cells, node)
    decreases |cells|
  {
    if cells != [] {
      var before, c := cells[..|cells| - 1], cells[|cells| - 1];
      LinkedLess(graph, consumed, cells, node);
      WalkArrives(graph, consumed, head, before, c.cell);
      assert LinkedCell(graph, consumed, cells, node, |cells| - 1);
      NoCycle(graph, consumed, before, c.cell);
      assert cells == before + [c];
    }
  }

  lemma LinkedLess(graph: set<Triple>, consumed: set<Triple>, cells: seq<Cell>, node: Node)
    requires cells != [] && Linked(graph, consumed, cells, node)
    ensures Linked(graph, consumed, cells[..|cells| - 1], cells[|cells| - 1].cell)
  {
    var before, last := cells[..|cells| - 1], cells[|cells| - 1].cell;
    forall i | 0 <= i < |before| ensures LinkedCell(graph, consumed, before, last, i) {
      assert LinkedCell(graph, consumed, cells, node, i);
      assert Following(before, last, i) == Following(cells, node, i);
    }
  }

  lemma {:induction false} WalkBreaks(graph: set<Triple>, consumed: set<Triple>, head: Node, cells: seq<Cell>,
      node: Node, error: WalkError)
    requires StandsOn(graph, consumed, head, cells, node)
    requires WalkFrom(graph, consumed, cells, node) == Err(error)
    ensures BreaksOff(graph, consumed, head, error)
    decreases |RestSubjects(graph) - CellNodes(cells)|
  {
    hide FaultAt;
    NoCycle(graph, consumed, cells, node);
    var checked := CheckCell(graph, consumed, cells, node);
    if checked.Err? {
      CheckIsFault(graph, consumed, cells, node, error);
      assert BreaksAt(graph, consumed, head, cells, node, error);
    } else {
      var (first, rest) := checked.value;
      CheckedCell(graph, consumed, cells, node);
      FewerLeft(graph, cells, Cell(node, first));
      LinkedPlus(graph, consumed, cells, node, first, rest);
      WalkBreaks(graph, consumed, head, cells + [Cell(node, first)], rest, error);
    }
  }

  // The walk reports a fault exactly where it is the first one on the way.
  lemma WalkFailsIff(graph: set<Triple>, consumed: set<Triple>, head: Node, error: WalkError)
    ensures Walk(graph, consumed, head) == Err(error) <==> BreaksOff(graph, consumed, head, error)
  {
    hide FaultAt;
    if Walk(graph, consumed, head) == Err(error) {
      WalkBreaks(graph, consumed, head, [], head, error);
    }
    if cells, node :| BreaksAt(graph, consumed, head, cells, node, error) {
      WalkArrives(graph, consumed, head, cells, node);
      NoCycle(graph, consumed, cells, node);
      CheckIsFault(graph, consumed, cells, node, error);
    }
  }

  // Lists as fragments

  function SeqOf(cells: seq<Cell>): Seq {
    Seq(seq(|cells|, i requires 0 <= i < |cells| => Entry(cells[i].cell, Some(cells[i].value))) + [Entry(NIL, None)])
  }

  function CellsOf(s: Seq): seq<Cell>
    requires forall i :: 0 <= i < |s.entries| - 1 ==> s.entries[i].value.Some?
  {
    if s.entries == [] then []
    else seq(|s.entries| - 1, i requires 0 <= i < |s.entries| - 1 => Cell(s.entries[i].cell, s.entries[i].value.value))
  }

  // A list that the graph holds for itself: every first and rest triple that
  // touches one of its cells is its own, and none of them is consumed.
  ghost predicate Owns(graph: set<Triple>, consumed: set<Triple>, s: Seq) {
    && s.AsTriples() <= graph - consumed
    && forall t, i :: t in graph && 0 <= i < |s.entries| - 1 && Touches(t, s.entries[i].cell) ==> t in s.AsTriples()
  }

  predicate Touches(t: Triple, cell: Node) {
    ((t.p == FIRST || t.p == REST) && t.s == cell) || (t.p == REST && t.o == cell)
  }

  lemma SeqOfTriples(cells: seq<Cell>)
    ensures SeqOf(cells).AsTriples() == CellTriples(cells)
  {
    var s := SeqOf(cells);
    forall i | 0 <= i < |cells|
      ensures s.entries[i] == Entry(cells[i].cell, Some(cells[i].value)) && s.Tail(i) == Following(cells, NIL, i)
    {}
    forall t | t in s.AsTriples() ensures t in CellTriples(cells) {
      if i :| 0 <= i < |s.entries| && s.entries[i].value.Some? && t == Triple(s.entries[i].cell, FIRST, s.entries[i].value.value) {
        assert i < |cells|;
      } else {
        var i :| 0 <= i < |s.entries| - 1 && t == Triple(s.entries[i].cell, REST, s.Tail(i));
        assert t == Triple(cells[i].cell, REST, Following(cells, NIL, i));
      }
    }
    forall t | t in CellTriples(cells) ensures t in s.AsTriples() {
      if i :| 0 <= i < |cells| && t == Triple(cells[i].cell, FIRST, cells[i].value) {
        assert s.entries[i].value == Some(cells[i].value);
      } else {
        var i :| 0 <= i < |cells| && t == Triple(cells[i].cell, REST, Following(cells, NIL, i));
        assert t == Triple(s.entries[i].cell, REST, s.Tail(i));
      }
    }
  }

  // The fragment made from an accepted list passes its own validators, and it
  // is a list that the graph holds for itself.
  lemma ParsedSeqOwned(graph: set<Triple>, consumed: set<Triple>, head: Node)
    requires IsResource(head) && Walk(graph, consumed, head).Ok?
    ensures var s := SeqOf(Walk(graph, consumed, head).value);
      s.Valid() && s.Name() == head && Owns(graph, consumed, s)
  {
    var cells := Walk(graph, consumed, head).value;
    var s := SeqOf(cells);
    WalkIsExact(graph, consumed, head);
    SeqOfTriples(cells);
    forall i | 0 <= i < |cells| ensures IsResource(cells[i].cell) && cells[i].cell != NIL {
      assert LinkedCell(graph, consumed, cells, NIL, i);
      if i > 0 {
        assert LinkedCell(graph, consumed, cells, NIL, i - 1);
      }
    }
    forall t, i | t in graph && 0 <= i < |s.entries| - 1 && Touches(t, s.entries[i].cell) ensures t in s.AsTriples() {
      assert s.entries[i].cell == cells[i].cell && cells[i].cell in CellNodes(cells);
      if t.p == REST && t.o == cells[i].cell {
        assert LinkedCell(graph, consumed, cells, NIL, i);
        assert t.s in Incoming(graph, cells[i].cell);
        assert t.s in CellNodes(cells);
      }
    }
  }

  lemma {:induction false} OwnedSeqWalked(graph: set<Triple>, consumed: set<Triple>, s: Seq, k: nat)
    requires s.Valid() && Owns(graph, consumed, s) && k < |s.entries|
    ensures WalkFrom(graph, consumed, CellsOf(s)[..k], s.entries[k].cell) == Ok(CellsOf(s))
    decreases |s.entries| - k
  {
    var cells := CellsOf(s);
    if k + 1 == |s.entries| {
      assert cells[..k] == cells;
    } else {
      OwnedCellChecked(graph, consumed, s, k);
      assert cells[..k] + [cells[k]] == cells[..k + 1];
      OwnedSeqWalked(graph, consumed, s, k + 1);
    }
  }

  lemma OwnedCellChecked(graph: set<Triple>, consumed: set<Triple>, s: Seq, k: nat)
    requires s.Valid() && Owns(graph, consumed, s) && k + 1 < |s.entries|
    ensures CheckCell(graph, consumed, CellsOf(s)[..k], s.entries[k].cell) == Ok((s.entries[k].value.value, s.entries[k + 1].cell))
  {
    OwnedObjects(graph, consumed, s, k);
    OwnedIncoming(graph, consumed, s, k);
    hide FIRST, REST;
    var before := CellsOf(s)[..k];
    forall i | 0 <= i < |before| ensures before[i].cell != s.entries[k].cell {
      assert before[i].cell == s.entries[i].cell;
    }
    if k > 0 {
      assert before[|before| - 1].cell == s.entries[k - 1].cell;
    }
  }

  // Each cell has one first and one rest triple, and one cell before it.
  lemma OwnedObjects(graph: set<Triple>, consumed: set<Triple>, s: Seq, k: nat)
    requires s.Valid() && Owns(graph, consumed, s) && k + 1 < |s.entries|
    ensures Objects(graph, s.entries[k].cell, FIRST) == {s.entries[k].value.value}
    ensures Objects(graph, s.entries[k].cell, REST) == {s.entries[k + 1].cell}
    ensures Triple(s.entries[k].cell, FIRST, s.entries[k].value.value) !in consumed
    ensures Triple(s.entries[k].cell, REST, s.entries[k + 1].cell) !in consumed
  {
    FirstIsNotRest();
    hide FIRST, REST;
    var current := s.entries[k].cell;
    var first, rest := Triple(current, FIRST, s.entries[k].value.value), Triple(current, REST, s.Tail(k));
    assert first in s.AsTriples() && rest in s.AsTriples();
    forall t | t in graph && t.s == current && (t.p == FIRST || t.p == REST) ensures t == first || t == rest {
      assert Touches(t, s.entries[k].cell);
      OwnTriple(s, k, t);
    }
  }

  lemma OwnedIncoming(graph: set<Triple>, consumed: set<Triple>, s: Seq, k: nat)
    requires s.Valid() && Owns(graph, consumed, s) && k + 1 < |s.entries|
    ensures Incoming(graph, s.entries[k].cell) == if k == 0 then {} else {s.entries[k - 1].cell}
  {
    FirstIsNotRest();
    hide FIRST, REST;
    var current := s.entries[k].cell;
    if k > 0 {
      assert Triple(s.entries[k - 1].cell, REST, s.Tail(k - 1)) in s.AsTriples();
    }
    forall t | t in graph && t.p == REST && t.o == current ensures k > 0 && t.s == s.entries[k - 1].cell {
      assert Touches(t, s.entries[k].cell);
      OwnBefore(s, k, t);
    }
  }

  lemma OwnTriple(s: Seq, k: nat, t: Triple)
    requires s.Valid() && k + 1 < |s.entries| && t in s.AsTriples() && t.s == s.entries[k].cell
    ensures t == Triple(t.s, FIRST, s.entries[k].value.value) || t == Triple(t.s, REST, s.Tail(k))
  {
    hide FIRST, REST;
    if i :| 0 <= i < |s.entries| && s.entries[i].value.Some? && t == Triple(s.entries[i].cell, FIRST, s.entries[i].value.value) {
      assert i == k;
    } else {
      var i :| 0 <= i < |s.entries| - 1 && t == Triple(s.entries[i].cell, REST, s.Tail(i));
      assert i == k;
    }
  }

  lemma OwnBefore(s: Seq, k: nat, t: Triple)
    requires s.Valid() && k + 1 < |s.entries| && t in s.AsTriples() && t.p == REST && t.o == s.entries[k].cell
    ensures k > 0 && t.s == s.entries[k - 1].cell
  {
    FirstIsNotRest();
    hide FIRST, REST;
    var i :| 0 <= i < |s.entries| - 1 && t == Triple(s.entries[i].cell, REST, s.Tail(i));
    assert i + 1 == k;
  }

  // The round trip: the walker accepts a list if and only if the graph holds
  // it for itself, and it returns exactly its entries.
  lemma WalkAcceptsOwned(graph: set<Triple>, consumed: set<Triple>, s: Seq)
    requires s.Valid()
    ensures Owns(graph, consumed, s) <==>
      Walk(graph, consumed, s.Name()).Ok? && SeqOf(Walk(graph, consumed, s.Name()).value) == s
  {
    if Owns(graph, consumed, s) {
      OwnedSeqWalked(graph, consumed, s, 0);
      assert CellsOf(s)[..0] == [];
      assert SeqOf(CellsOf(s)).entries == s.entries;
    }
    if Walk(graph, consumed, s.Name()).Ok? {
      ParsedSeqOwned(graph, consumed, s.Name());
    }
  }

  // The other reader

  function Value(graph: set<Triple>, s: Node, p: Node): Option<Node> {
    if |Objects(graph, s, p)| == 1 then Some(The(Objects(graph, s, p))) else None
  }

  // The reader stops here: at nil, at a node without exactly one value or
  // successor, or at one whose successor is a literal.
  predicate Stops(graph: set<Triple>, current: Node) {
    || current == NIL || Value(graph, current, FIRST) == None || Value(graph, current, REST) == None
    || !IsResource(Value(graph, current, REST).value)
  }

  function Successor(graph: set<Triple>, current: Node): Node
    requires !Stops(graph, current)
  {
    Value(graph, current, REST).value
  }

  // Whether following rest from the node comes to a stop within so many steps.
  predicate Ends(graph: set<Triple>, current: Node, steps: nat)
    decreases steps
  {
    Stops(graph, current) || (steps > 0 && Ends(graph, Successor(graph, current), steps - 1))
  }

  function Chain(graph: set<Triple>, cells: seq<Cell>, current: Node, ghost steps: nat): Option<seq<Cell>>
    requires Ends(graph, current, steps)
    decreases steps
  {
    if current == NIL then Some(cells)
    else
      var first, rest := Value(graph, current, FIRST), Value(graph, current, REST);
      if first == None || rest == None || !IsResource(rest.value) then None
      else Chain(graph, cells + [Cell(current, first.value)], rest.value, steps - 1)
  }

  // What is read, told by the triples

  // The node has this value of the property and no other.
  ghost predicate HasOnly(graph: set<Triple>, s: Node, p: Node, o: Node) {
    Triple(s, p, o) in graph && forall x :: Triple(s, p, x) in graph ==> x == o
  }

  // The cell has one value and one successor, which is the next node.
  ghost predicate CellReads(graph: set<Triple>, c: Cell, next: Node) {
    c.cell != NIL && HasOnly(graph, c.cell, FIRST, c.value) && HasOnly(graph, c.cell, REST, next) && IsResource(next)
  }

  function NodeAt(cells: seq<Cell>, i: nat): Node
    requires i <= |cells|
  {
    if i < |cells| then cells[i].cell else NIL
  }

  // From the head to nil.
  ghost predicate CellsRead(graph: set<Triple>, head: Node, cells: seq<Cell>) {
    NodeAt(cells, 0) == head && forall i :: 0 <= i < |cells| ==> CellReads(graph, cells[i], NodeAt(cells, i + 1))
  }

  lemma OnlyIsValue(graph: set<Triple>, s: Node, p: Node, o: Node)
    ensures HasOnly(graph, s, p, o) <==> Value(graph, s, p) == Some(o)
  {
    var objects := Objects(graph, s, p);
    forall x ensures x in objects <==> Triple(s, p, x) in graph {
      if x in objects {
        var t :| t in graph && t.s == s && t.p == p && t.o == x;
        assert t == Triple(s, p, x);
      }
    }
    if HasOnly(graph, s, p, o) {
      assert objects == {o};
    }
  }

  lemma OneMoreRead(graph: set<Triple>, c: Cell, next: Node, rest: seq<Cell>)
    ensures CellsRead(graph, c.cell, [c] + rest) && NodeAt(rest, 0) == next <==> CellReads(graph, c, next) && CellsRead(graph, next, rest)
  {
    hide CellReads;
    var cells := [c] + rest;
    assert forall i :: 0 <= i <= |rest| ==> NodeAt(cells, i + 1) == NodeAt(rest, i);
    assert forall i :: 0 <= i < |rest| ==> cells[i + 1] == rest[i];
    if CellsRead(graph, c.cell, cells) && NodeAt(rest, 0) == next {
      assert CellReads(graph, cells[0], NodeAt(cells, 1));
      forall i | 0 <= i < |rest| ensures CellReads(graph, rest[i], NodeAt(rest, i + 1)) {
        assert CellReads(graph, cells[i + 1], NodeAt(cells, i + 2));
      }
    }
  }

  lemma {:induction false} ChainIsRead(graph: set<Triple>, before: seq<Cell>, current: Node, steps: nat)
    requires Ends(graph, current, steps) && Chain(graph, before, current, steps).Some?
    ensures var all := Chain(graph, before, current, steps).value;
      before <= all && CellsRead(graph, current, all[|before|..])
    decreases steps
  {
    hide HasOnly, CellsRead;
    var all := Chain(graph, before, current, steps).value;
    if current == NIL {
      assert all[|before|..] == [];
      assert CellsRead(graph, NIL, []) by { NothingRead(graph); }
    } else {
      var c, next := Cell(current, Value(graph, current, FIRST).value), Value(graph, current, REST).value;
      ChainIsRead(graph, before + [c], next, steps - 1);
      OnlyIsValue(graph, current, FIRST, c.value);
      OnlyIsValue(graph, current, REST, next);
      var rest := all[|before| + 1..];
      assert all[|before|..] == [c] + rest;
      OneMoreRead(graph, c, next, rest);
    }
  }

  lemma NothingRead(graph: set<Triple>)
    ensures CellsRead(graph, NIL, [])
  {
  }

  lemma {:induction false} ReadIsChain(graph: set<Triple>, before: seq<Cell>, current: Node, steps: nat, cells: seq<Cell>)
    requires Ends(graph, current, steps) && CellsRead(graph, current, cells)
    ensures Chain(graph, before, current, steps) == Some(before + cells)
    decreases steps
  {
    if cells == [] {
      assert before + cells == before;
    } else {
      hide HasOnly;
      var c, next, rest := cells[0], NodeAt(cells, 1), cells[1..];
      assert cells == [c] + rest && NodeAt(rest, 0) == next;
      OneMoreRead(graph, c, next, rest);
      OnlyIsValue(graph, current, FIRST, c.value);
      OnlyIsValue(graph, current, REST, next);
      ReadIsChain(graph, before + [c], next, steps - 1, rest);
      assert before + [c] + rest == before + cells;
    }
  }

  // The list stands in the graph, cell by cell, and no cell comes twice.
  ghost predicate ReadsAs(graph: set<Triple>, head: Node, list: Seq) {
    var entries := list.entries;
    && entries != [] && entries[0].cell == head && entries[|entries| - 1] == Entry(NIL, None)
    && (forall i :: 0 <= i < |entries| - 1 ==> EntryReads(graph, entries[i], entries[i + 1].cell))
    && forall i, j :: 0 <= i < j < |entries| - 1 ==> entries[i].cell != entries[j].cell
  }

  ghost predicate EntryReads(graph: set<Triple>, e: Entry, next: Node) {
    e.value.Some? && CellReads(graph, Cell(e.cell, e.value.value), next)
  }

  lemma EntriesRead(graph: set<Triple>, head: Node, cells: seq<Cell>)
    ensures ReadsAs(graph, head, SeqOf(cells)) <==> CellsRead(graph, head, cells) && Unique(cells)
  {
    hide CellReads;
    var entries := SeqOf(cells).entries;
    assert |entries| == |cells| + 1;
    forall i | 0 <= i < |cells|
      ensures EntryReads(graph, entries[i], entries[i + 1].cell) <==> CellReads(graph, cells[i], NodeAt(cells, i + 1))
    {
      assert entries[i] == Entry(cells[i].cell, Some(cells[i].value));
    }
    if CellsRead(graph, head, cells) {
      forall i | 0 <= i < |cells| ensures cells[i].cell != NIL { CellIsNotNil(graph, cells[i], NodeAt(cells, i + 1)); }
    }
  }

  lemma CellIsNotNil(graph: set<Triple>, c: Cell, next: Node)
    requires CellReads(graph, c, next)
    ensures c.cell != NIL
  {
  }

  lemma EntriesAreCells(graph: set<Triple>, head: Node, list: Seq) returns (cells: seq<Cell>)
    requires ReadsAs(graph, head, list)
    ensures list == SeqOf(cells)
  {
    hide CellReads;
    var entries := list.entries;
    forall i | 0 <= i < |entries| - 1 ensures entries[i].value.Some? {
      assert EntryReads(graph, entries[i], entries[i + 1].cell);
    }
    cells := CellsOf(list);
    assert SeqOf(cells).entries == list.entries;
  }

  function ReadFrom(graph: set<Triple>, head: Node, ghost steps: nat): Option<Seq>
    requires Ends(graph, head, steps)
  {
    match Chain(graph, [], head, steps)
    case None => None
    case Some(cells) => if Unique(cells) then Some(SeqOf(cells)) else None
  }

  // What comes of the chain is the list that stands there, if one does.
  lemma ReadingIs(graph: set<Triple>, head: Node, steps: nat)
    requires Ends(graph, head, steps)
    ensures var r := ReadFrom(graph, head, steps); r.Some? ==> ReadsAs(graph, head, r.value)
    ensures forall list :: ReadsAs(graph, head, list) ==> ReadFrom(graph, head, steps) == Some(list)
  {
    hide CellsRead, Unique, ReadsAs, Ends;
    var chain := Chain(graph, [], head, steps);
    if chain.Some? {
      ChainIsRead(graph, [], head, steps);
      assert chain.value[0..] == chain.value;
      EntriesRead(graph, head, chain.value);
    }
    forall list | ReadsAs(graph, head, list) ensures ReadFrom(graph, head, steps) == Some(list) {
      var cells := EntriesAreCells(graph, head, list);
      EntriesRead(graph, head, cells);
      ReadIsChain(graph, [], head, steps, cells);
      assert [] + cells == cells;
    }
  }

  // Reads a list without looking for other users of its cells. It would run
  // forever on a list that comes back to one of its cells.
  method FromRdflib(graph: set<Triple>, head: Node, ghost steps: nat) returns (r: Option<Seq>)
    requires Ends(graph, head, steps)
    ensures r.Some? ==> ReadsAs(graph, head, r.value)
    ensures forall list :: ReadsAs(graph, head, list) ==> r == Some(list)
    ensures r == ReadFrom(graph, head, steps)
  {
    ReadingIs(graph, head, steps);
    hide ReadsAs;
    var cells, current := [], head;
    ghost var left := steps;
    while current != NIL
      invariant Ends(graph, current, left) && Chain(graph, [], head, steps) == Chain(graph, cells, current, left)
      decreases left
    {
      var first := Value(graph, current, FIRST);
      if first == None {
        return None;
      }
      var rest := Value(graph, current, REST);
      if rest == None || !IsResource(rest.value) {
        return None;
      }
      if left == 0 {
        assert false;
      }
      cells := cells + [Cell(current, first.value)];
      current := rest.value;
      left := left - 1;
    }
    r := if Unique(cells) then Some(SeqOf(cells)) else None;
  }

  // No cell twice, and none of them nil.
  predicate Unique(cells: seq<Cell>) {
    && (forall i, j :: 0 <= i < j < |cells| ==> cells[i].cell != cells[j].cell)
    && forall i :: 0 <= i < |cells| ==> cells[i].cell != NIL
  }

  // On every list the walker accepts, reading ends and yields the same entries.
  lemma AcceptedIsRead(graph: set<Triple>, consumed: set<Triple>, head: Node)
    requires Walk(graph, consumed, head).Ok?
    ensures var cells := Walk(graph, consumed, head).value;
      Ends(graph, head, |cells|) && Chain(graph, [], head, |cells|) == Some(cells) && Unique(cells)
  {
    WalkIsExact(graph, consumed, head);
    var cells := Walk(graph, consumed, head).value;
    forall i | 0 <= i < |cells| ensures cells[i].cell != NIL {
      assert LinkedCell(graph, consumed, cells, NIL, i);
    }
    AcceptedFrom(graph, consumed, cells, 0);
    assert cells[..0] == [];
  }

  lemma {:induction false} AcceptedFrom(graph: set<Triple>, consumed: set<Triple>, cells: seq<Cell>, k: nat)
    requires Linked(graph, consumed, cells, NIL) && k <= |cells|
    ensures var current := if k < |cells| then cells[k].cell else NIL;
      Ends(graph, current, |cells| - k) && Chain(graph, cells[..k], current, |cells| - k) == Some(cells)
    decreases |cells| - k
  {
    if k == |cells| {
      assert cells[..k] == cells;
    } else {
      assert LinkedCell(graph, consumed, cells, NIL, k);
      AcceptedFrom(graph, consumed, cells, k + 1);
      assert cells[..k] + [cells[k]] == cells[..k + 1];
    }
  }

  // When reading ends

  // The nodes the reader meets, in order.
  ghost predicate Trail(graph: set<Triple>, head: Node, nodes: seq<Node>) {
    && nodes != [] && nodes[0] == head
    && forall i :: 0 <= i < |nodes| - 1 ==> !Stops(graph, nodes[i]) && nodes[i + 1] == Successor(graph, nodes[i])
  }

  // It comes back to a node it has met before.
  ghost predicate ComesBack(graph: set<Triple>, head: Node) {
    exists nodes, i, j :: Trail(graph, head, nodes) && 0 <= i < j < |nodes| && nodes[i] == nodes[j]
  }

  lemma {:induction false} EndsLater(graph: set<Triple>, nodes: seq<Node>, steps: nat)
    requires nodes != [] && Trail(graph, nodes[0], nodes) && Ends(graph, nodes[0], steps)
    ensures steps >= |nodes| - 1 && Ends(graph, nodes[|nodes| - 1], steps - (|nodes| - 1))
    decreases |nodes|
  {
    if |nodes| > 1 {
      TrailPart(graph, nodes[0], nodes, 1, |nodes| - 1);
      assert nodes[1..|nodes|] == nodes[1..];
      EndsLater(graph, nodes[1..], steps - 1);
    }
  }

  // Round a loop there is no last step.
  lemma {:induction false} LoopNeverEnds(graph: set<Triple>, nodes: seq<Node>, steps: nat)
    requires |nodes| > 1 && Trail(graph, nodes[0], nodes) && nodes[|nodes| - 1] == nodes[0]
    ensures !Ends(graph, nodes[0], steps)
    decreases steps
  {
    if Ends(graph, nodes[0], steps) {
      EndsLater(graph, nodes, steps);
      LoopNeverEnds(graph, nodes, steps - (|nodes| - 1));
    }
  }

  lemma TrailPart(graph: set<Triple>, head: Node, nodes: seq<Node>, i: nat, j: nat)
    requires Trail(graph, head, nodes) && i <= j < |nodes|
    ensures Trail(graph, nodes[i], nodes[i..j + 1])
  {
    hide Stops;
    var part := nodes[i..j + 1];
    forall k | 0 <= k < |part| - 1 ensures !Stops(graph, part[k]) && part[k + 1] == Successor(graph, part[k]) {
      assert part[k] == nodes[i + k] && part[k + 1] == nodes[i + k + 1];
    }
  }

  lemma ComingBackNeverEnds(graph: set<Triple>, head: Node, steps: nat)
    requires ComesBack(graph, head)
    ensures !Ends(graph, head, steps)
  {
    hide Ends, Trail;
    var nodes, i, j :| Trail(graph, head, nodes) && 0 <= i < j < |nodes| && nodes[i] == nodes[j];
    BackNeverEnds(graph, head, nodes, i, j, steps);
  }

  lemma BackNeverEnds(graph: set<Triple>, head: Node, nodes: seq<Node>, i: nat, j: nat, steps: nat)
    requires Trail(graph, head, nodes) && i < j < |nodes| && nodes[i] == nodes[j]
    ensures !Ends(graph, head, steps)
  {
    TrailHead(graph, head, nodes);
    TrailPart(graph, head, nodes, 0, i);
    TrailPart(graph, head, nodes, i, j);
    hide Trail, Ends;
    var lead, loop := nodes[0..i + 1], nodes[i..j + 1];
    assert lead[|lead| - 1] == loop[0] == loop[|loop| - 1] == nodes[i];
    if Ends(graph, head, steps) {
      EndsLater(graph, lead, steps);
      LoopNeverEnds(graph, loop, steps - i);
    }
  }

  lemma TrailHead(graph: set<Triple>, head: Node, nodes: seq<Node>)
    requires Trail(graph, head, nodes)
    ensures nodes != [] && nodes[0] == head
  {
  }

  // As long as no node comes up twice, there are rest triples left to follow.
  lemma {:induction false} FreshTrailEnds(graph: set<Triple>, head: Node, nodes: seq<Node>)
    requires Trail(graph, head, nodes) && !ComesBack(graph, head)
    ensures |nodes| - 1 <= |RestSubjects(graph)|
    ensures Ends(graph, nodes[|nodes| - 1], |RestSubjects(graph)| - (|nodes| - 1))
    decreases |RestSubjects(graph)| + 1 - |nodes|
  {
    hide Stops, Successor, RestSubjects, ComesBack;
    var last := nodes[|nodes| - 1];
    TrailBound(graph, head, nodes);
    if !Stops(graph, last) {
      var more := nodes + [Successor(graph, last)];
      assert Trail(graph, head, more);
      TrailBound(graph, head, more);
      FreshTrailEnds(graph, head, more);
    }
  }

  // The nodes that are left behind are different subjects of rest triples.
  lemma TrailBound(graph: set<Triple>, head: Node, nodes: seq<Node>)
    requires Trail(graph, head, nodes) && !ComesBack(graph, head)
    ensures |nodes| - 1 <= |RestSubjects(graph)|
  {
    var left := nodes[..|nodes| - 1];
    forall i | 0 <= i < |left| ensures left[i] in RestSubjects(graph) {
      StepHasRest(graph, left[i]);
    }
    assert forall i, j :: 0 <= i < j < |left| ==> left[i] != left[j];
    DistinctWithin(left, RestSubjects(graph));
  }

  lemma StepHasRest(graph: set<Triple>, n: Node)
    requires !Stops(graph, n)
    ensures n in RestSubjects(graph)
  {
    assert Value(graph, n, REST).value in Objects(graph, n, REST);
  }

  lemma {:induction false} DistinctWithin<T>(q: seq<T>, s: set<T>)
    requires forall i, j :: 0 <= i < j < |q| ==> q[i] != q[j]
    requires forall i :: 0 <= i < |q| ==> q[i] in s
    ensures |q| <= |s|
    decreases |q|
  {
    if q != [] {
      DistinctWithin(q[1..], s - {q[0]});
    }
  }

  ghost predicate EndsAtAll(graph: set<Triple>, head: Node) {
    exists steps: nat :: Ends(graph, head, steps)
  }

  lemma EndsSome(graph: set<Triple>, head: Node, steps: nat)
    requires Ends(graph, head, steps)
    ensures EndsAtAll(graph, head)
  {
  }

  // The exact condition: reading ends if and only if it never comes back to a
  // node, and then within as many steps as there are subjects of rest triples,
  // which can be checked before the call.
  lemma EndsIff(graph: set<Triple>, head: Node)
    ensures EndsAtAll(graph, head) <==> !ComesBack(graph, head)
    ensures Ends(graph, head, |RestSubjects(graph)|) <==> !ComesBack(graph, head)
  {
    if ComesBack(graph, head) {
      forall steps: nat ensures !Ends(graph, head, steps) { ComingBackNeverEnds(graph, head, steps); }
      assert !EndsAtAll(graph, head);
    } else {
      FreshTrailEnds(graph, head, [head]);
      EndsSome(graph, head, |RestSubjects(graph)|);
    }
  }

  // The smallest list on which reading does not end.
  lemma SelfLoopNeverEnds(cell: Node, v: Node, steps: nat)
    requires cell != NIL && IsResource(cell)
    ensures !Ends({Triple(cell, FIRST, v), Triple(cell, REST, cell)}, cell, steps)
  {
    var graph := {Triple(cell, FIRST, v), Triple(cell, REST, cell)};
    FirstIsNotRest();
    hide FIRST, REST;
    assert Objects(graph, cell, FIRST) == {v} && Objects(graph, cell, REST) == {cell};
    var nodes := [cell, cell];
    assert Trail(graph, cell, nodes) && nodes[0] == nodes[1];
    ComingBackNeverEnds(graph, cell, steps);
  }
}
