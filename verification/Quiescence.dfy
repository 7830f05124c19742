// What holds of the store between calls, whatever the calls were.
module Quiescence {
  import opened Rdf
  import opened Rules
  import opened TruthMaintenance
  import opened Engine
  import opened Incremental
  import opened Worlds
  import opened Stores

  function Admissible(graph: set<Triple>): set<Triple> {
    set t | t in graph && Permitted(t)
  }

  // The conclusions of every rule instance that is not silent are in the
  // graph, unless the instance holds of what the bootstrap rules alone entail.
  ghost predicate Displayed(prog: Program, known: set<Triple>, graph: set<Triple>) {
    exists boot: set<Triple> :: Least(prog, true, {}, boot) && DisplayedBut(prog, known, boot, graph)
  }

  ghost predicate DisplayedBut(prog: Program, known: set<Triple>, boot: set<Triple>, graph: set<Triple>) {
    forall a :: Displays(prog, known, a) && !IsActivation(prog, true, a, boot) ==> Conclusions(a) <= graph
  }

  // Every engine knows exactly the rule closure of what the backing store
  // holds for its context, all it shows is in there, and it shows what is
  // to be displayed.
  ghost predicate Agreed(prog: Program, w: World) {
    forall c :: c in w.views ==>
      && Least(prog, true, Admissible(w.Graph(c)), w.views[c].known)
      && w.views[c].materialized <= w.Graph(c)
      && Displayed(prog, w.views[c].known, w.Graph(c))
  }

  lemma SoundAgreed(s: RETEStore)
    requires s.Valid() && Sound(s.Now(), [])
    ensures Agreed(s.prog, s.Now())
  {
    hide Least, RETEEngine.Valid, RETEEngine.Warmed, Displayed;
    forall c | c in s.Now().views
      ensures Least(s.prog, true, Admissible(s.Now().Graph(c)), s.Now().views[c].known)
      ensures s.Now().views[c].materialized <= s.Now().Graph(c)
      ensures Displayed(s.prog, s.Now().views[c].known, s.Now().Graph(c))
    {
      var e := s.engines[c];
      assert e.Warmed() && e.prog == s.prog;
      assert s.Now().views[c] == ViewOf(e);
      assert Agrees(s.Now().views[c], s.Now().Graph(c), TriplesIn([], c));
      WarmedValid(e);
      KnownIsLeast(e);
      OnlyPermitted(e);
      LeastBetween(s.prog, e.Stated() + e.lingering, Admissible(s.Now().Graph(c)), e.known);
      WarmedDisplays(e, s.Now().Graph(c));
    }
  }

  lemma WarmedValid(e: RETEEngine)
    requires e.Warmed()
    ensures e.Valid() && e.bootstrapCompleted
  {
  }

  lemma WarmedDisplays(e: RETEEngine, graph: set<Triple>)
    requires e.Warmed() && e.materialized <= graph
    ensures Displayed(e.prog, e.known, graph)
  {
    hide IsActivation, Least;
    assert DisplayedBut(e.prog, e.known, e.boot, graph);
  }

  // So everything is in the graph if and only if the conclusions of those
  // instances are, which do not depend on what the store holds.
  lemma AllDisplayedIff(prog: Program, w: World, c: Node, boot: set<Triple>)
    requires Agreed(prog, w) && c in w.views && Least(prog, true, {}, boot)
    ensures (forall a :: Displays(prog, w.views[c].known, a) ==> Conclusions(a) <= w.Graph(c)) <==>
      forall a :: Displays(prog, boot, a) ==> Conclusions(a) <= w.Graph(c)
  {
    var known := w.views[c].known;
    var other: set<Triple> :| Least(prog, true, {}, other) && DisplayedBut(prog, known, other, w.Graph(c));
    LeastIsUnique(prog, true, {}, boot, other);
    assert boot <= known;
    forall a | Displays(prog, boot, a) ensures Displays(prog, known, a) {
      ActivationMonotone(prog, true, a, boot, known);
    }
    hide IsActivation;
  }

  lemma OnlyPermitted(e: RETEEngine)
    requires e.Valid()
    ensures AllPermitted(e.known)
  {
  }

  lemma LeastBetween(prog: Program, base: set<Triple>, more: set<Triple>, known: set<Triple>)
    requires Least(prog, true, base, known) && base <= more <= known
    ensures Least(prog, true, more, known)
  {
  }

  // How a graph came about does not matter: equal graphs, equal knowledge.
  lemma GraphDeterminesKnowledge(prog: Program, w: World, w': World, c: Node)
    requires Agreed(prog, w) && Agreed(prog, w') && c in w.views && c in w'.views
    requires w.Graph(c) == w'.Graph(c)
    ensures w.views[c].known == w'.views[c].known
  {
    LeastIsUnique(prog, true, Admissible(w.Graph(c)), w.views[c].known, w'.views[c].known);
  }

  datatype Op = Add(t: Triple, c: Node) | AddN(quads: seq<Quad>) | Remove(t: Triple, c: Node)

  // Any sequence of calls on a store opened over any content.
  method Play(prog: Program, content: map<Node, set<Triple>>, ops: seq<Op>) returns (s: RETEStore)
    ensures s.prog == prog && s.Valid() && s.Now().Idle() && Sound(s.Now(), [])
    ensures Agreed(s.prog, s.Now())
  {
    hide RETEStore.Valid, RETEStore.Repr, Sound, Agreed;
    s := new RETEStore(prog, content);
    NoEnginesSound(s.Now());
    s.Open();
    for i := 0 to |ops|
      invariant s.prog == prog && s.Valid() && fresh(s.Repr())
      invariant s.Now().Idle() && Sound(s.Now(), [])
    {
      match ops[i] {
        case Add(t, c) => s.Add(t, c);
        case AddN(quads) => s.AddN(quads);
        case Remove(t, c) => var _ := s.Remove(t, c);
      }
    }
    SoundAgreed(s);
  }

  lemma NoEnginesSound(w: World)
    requires w.views == map[]
    ensures Sound(w, [])
  {
  }

  // Removing a triple the engine still holds changes nothing but its stated
  // flag. Removing any other takes exactly the lost facts out of the graph.
  method RemoveOne(s: RETEStore, t: Triple, c: Node) returns (survived: bool)
    requires s.Valid() && s.Now().Idle() && Sound(s.Now(), []) && c in s.Now().views && t in s.Now().Graph(c)
    modifies s.Repr()
    ensures s.Valid() && s.Now().Idle() && Sound(s.Now(), []) && c in s.Now().views
    ensures survived <==> Survives(s.prog, old(s.Now().views[c]), t)
    ensures s.Now().views[c].stated == old(s.Now().views[c].stated) - {t}
    ensures survived ==>
      && s.Now().Graph(c) == old(s.Now().Graph(c)) && s.Now().warnings == old(s.Now().warnings) + [Quad(t, c)]
      && s.Now().views[c].known == old(s.Now().views[c].known)
      && s.Now().views[c].materialized == old(s.Now().views[c].materialized)
    ensures !survived ==>
      && s.Now().Graph(c) == old(s.Now().Graph(c)) - (old(s.Now().views[c].known) - s.Now().views[c].known) - {t}
      && t !in s.Now().views[c].known && s.Now().warnings == old(s.Now().warnings)
      && LostAlone(s.prog, old(s.Now().views[c]), t, old(s.Now().views[c].known) - s.Now().views[c].known)
    ensures !survived && old(s.Now().views[c].lingering) == {} ==>
      Least(s.prog, true, s.Now().views[c].stated, s.Now().views[c].known)
    ensures forall d :: d != c ==> s.Now().Graph(d) == old(s.Now().Graph(d))
    ensures Agreed(s.prog, s.Now())
  {
    hide RETEStore.Valid, RETEStore.Repr, Sound, Agreed, Survives, SameContent, Readied, LostAlone, Least;
    ghost var w := s.Now();
    ViewIsLeast(s, c);
    var warned := |s.warnings|;
    ghost var warm := s.Remove(t, c);
    ReadiedSame(w, warm, c);
    survived := |s.warnings| > warned;
    SoundAgreed(s);
    if !survived {
      LostLeavesClosure(s.prog, w.views[c], s.Now().views[c], t);
    }
  }

  lemma ViewIsLeast(s: RETEStore, c: Node)
    requires s.Valid() && c in s.Now().views
    ensures var v := s.Now().views[c]; Least(s.prog, true, v.stated + v.lingering, v.known) && v.stated <= v.known
  {
    hide Least, RETEEngine.Valid, RETEEngine.Warmed;
    var e := s.engines[c];
    assert e.Warmed() && e.prog == s.prog;
    assert s.Now().views[c] == ViewOf(e);
    WarmedValid(e);
    KnownIsLeast(e);
    StatedIsKnown(e);
  }

  lemma StatedIsKnown(e: RETEEngine)
    requires e.Valid()
    ensures e.Stated() <= e.known
  {
  }

  lemma LostLeavesClosure(prog: Program, v: EngineView, v': EngineView, t: Triple)
    requires Least(prog, true, v.stated + v.lingering, v.known) && v.stated <= v.known
    requires v'.known <= v.known && v'.stated == v.stated - {t} && LostAlone(prog, v, t, v.known - v'.known)
    requires !Survives(prog, v, t)
    ensures v.lingering == {} ==> Least(prog, true, v'.stated, v'.known)
  {
    hide Derivable, SweptFrom, Least;
    if v.lingering == {} {
      assert v.stated + v.lingering == v.stated;
      assert v'.known == v.known - (v.known - v'.known);
      if t in v.stated {
        SweptLeavesClosure(prog, v.known, v.stated, t, v.known - v'.known);
      } else {
        assert v'.stated == v.stated && v'.known == v.known;
      }
    }
  }

  lemma ReadiedSame(w: World, warm: World, c: Node)
    requires c in w.views && Readied(w, warm, c)
    ensures warm.views[c] == w.views[c] && warm.Graph(c) == w.Graph(c) && warm.warnings == w.warnings
    ensures forall d :: d != c ==> warm.Graph(d) == w.Graph(d)
  {
  }
}
