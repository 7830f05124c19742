// The observable state of the store wrapper as a value, and what its
// operations promise about it.
module Worlds {
  import opened Rdf
  import opened Rules
  import opened Support
  import opened TruthMaintenance
  import opened Engine

  datatype Quad = Quad(t: Triple, c: Node)

  datatype EngineView = EngineView(known: set<Triple>, materialized: set<Triple>, stated: set<Triple>, lingering: set<Triple>)

  datatype World = World(
    graphs: map<Node, set<Triple>>,
    views: map<Node, EngineView>,
    additions: map<Node, set<Triple>>,
    handlingAddition: bool,
    additionBatches: nat,
    removals: map<Node, set<Triple>>,
    handlingRemoval: bool,
    removalBatches: nat,
    pending: map<Node, set<Triple>>,
    removeDepth: nat,
    warnings: seq<Quad>)
  {
    function Graph(c: Node): set<Triple> {
      Lookup(graphs, c)
    }

    // Nothing is queued, and no event is being handled.
    predicate Idle() {
      && additions == removals == pending == map[]
      && !handlingAddition && !handlingRemoval && removeDepth == 0
    }
  }

  function TriplesIn(quads: seq<Quad>, c: Node): set<Triple> {
    set i | 0 <= i < |quads| && quads[i].c == c :: quads[i].t
  }

  function ContextsOf(quads: seq<Quad>): set<Node> {
    set i | 0 <= i < |quads| :: quads[i].c
  }

  // The graphs once every quad has been written.
  function WithQuads(graphs: map<Node, set<Triple>>, quads: seq<Quad>): map<Node, set<Triple>> {
    map c | c in graphs.Keys + ContextsOf(quads) :: Lookup(graphs, c) + TriplesIn(quads, c)
  }

  // Only the engine of context c changed.
  ghost predicate OnlyView(w: World, w': World, c: Node) {
    && w' == w.(views := w'.views)
    && c in w.views && w'.views.Keys == w.views.Keys
    && forall d :: d in w.views && d != c ==> w'.views[d] == w.views[d]
  }

  // An engine for context c appeared.
  ghost predicate AddedView(w: World, w': World, c: Node) {
    && w' == w.(views := w'.views)
    && c !in w.views && w'.views.Keys == w.views.Keys + {c}
    && forall d :: d in w.views ==> w'.views[d] == w.views[d]
  }

  // AddTriples, as seen from outside.
  ghost predicate EngineAdded(v: EngineView, v': EngineView, triples: set<Triple>, shown: set<Triple>) {
    var added := Admitted(triples, v.known);
    && v'.stated == v.stated + added
    && v.known + added <= v'.known
    && v'.materialized == v.materialized + added + shown
    && v'.materialized <= v'.known
    && shown !! v.materialized + added
    && (added == {} ==> v' == v && shown == {})
    && v'.lingering == v.lingering
  }

  // What an engine says about its facts concerns facts it knows.
  ghost predicate Inside(v: EngineView) {
    v.stated + v.lingering <= v.known && v.materialized <= v.known
  }

  // RetractTriples, as seen from outside.
  ghost predicate EngineRetracted(prog: Program, v: EngineView, v': EngineView, triples: set<Triple>,
      cascade: set<Triple>) {
    && Inside(v) && Inside(v')
    && cascade <= v.known && v'.known == v.known - cascade
    && v'.materialized == v.materialized - cascade
    && v'.stated == v.stated - triples
    && v'.lingering == (v.lingering + v.stated * triples) * v'.known
    && ((forall t :: t in triples * v.stated ==> Derivable(prog, true, v.known, t)) ==> cascade == {})
    && (forall t :: triples == {t} && t in v.stated && !Derivable(prog, true, v.known, t) ==> t in cascade)
    && (forall t :: triples == {t} ==> LostAlone(prog, v, t, cascade))
  }

  // What goes with a sweep from t, the justifications being the rule instances.
  ghost predicate SweptFrom(prog: Program, known: set<Triple>, stated: set<Triple>, t: Triple, lost: set<Triple>) {
    exists J: set<Justification> :: Recorded(J, prog, true, known) && Swept(J, known, stated, t, lost)
  }

  // What an engine loses when it retracts t alone.
  ghost predicate LostAlone(prog: Program, v: EngineView, t: Triple, lost: set<Triple>) {
    if t in v.stated && !Derivable(prog, true, v.known, t) then SweptFrom(prog, v.known, v.stated, t, lost) else lost == {}
  }

  lemma LostDetermined(prog: Program, v: EngineView, t: Triple, c: set<Triple>, d: set<Triple>)
    requires LostAlone(prog, v, t, c) && LostAlone(prog, v, t, d)
    ensures c == d
  {
    hide Recorded, Swept;
    if t in v.stated && !Derivable(prog, true, v.known, t) {
      var J: set<Justification> :| Recorded(J, prog, true, v.known) && Swept(J, v.known, v.stated, t, c);
      var L: set<Justification> :| Recorded(L, prog, true, v.known) && Swept(L, v.known, v.stated, t, d);
      RecordedUnique(J, L, prog, true, v.known);
      SweptUnique(J, v.known, v.stated, t, c, d);
    }
  }

  // Where nothing lingers, what is left is the closure of the other stated facts.
  lemma SweptLeavesClosure(prog: Program, known: set<Triple>, stated: set<Triple>, t: Triple, lost: set<Triple>)
    requires Least(prog, true, stated, known) && SweptFrom(prog, known, stated, t, lost)
    ensures Least(prog, true, stated - {t}, known - lost)
  {
    var J: set<Justification> :| Recorded(J, prog, true, known) && Swept(J, known, stated, t, lost);
    var rest := known - lost;
    forall j | j in J ensures j.consequent in known {
      var a :| IsActivation(prog, true, a, known) && j in JustificationsOf(a);
    }
    hide IsActivation;
    SupportIsClosure(J, prog, true, stated, known);
    SweepIsExact(J, stated, known, stated, t, lost);
    SweptKeeps(J, known, stated, t, lost);
    assert (stated - {t}) * rest == stated - {t};
    SurvivingRecorded(J, prog, true, known, lost);
    SupportIsClosure(Surviving(J, lost), prog, true, stated - {t}, rest);
  }

  lemma SweptKeeps(J: set<Justification>, facts: set<Triple>, stated: set<Triple>, t: Triple, removed: set<Triple>)
    requires Swept(J, facts, stated, t, removed)
    ensures stated - {t} <= facts - removed && SupportClosed(J, facts - removed)
  {
  }

  // Warmup, as seen from outside.
  ghost predicate EngineWarmed(v: EngineView, existing: set<Triple>, shown: set<Triple>) {
    && (forall t :: t in existing && Permitted(t) ==> t in v.known)
    && v.stated <= existing && v.lingering == {}
    && shown <= v.materialized <= existing + shown
    && v.stated <= v.materialized <= v.known
  }

  // Additions

  // Only what an addition may change has changed.
  ghost predicate AdditionsOnly(w: World, w': World) {
    w' == w.(graphs := w'.graphs, views := w'.views, additions := w'.additions, additionBatches := w'.additionBatches)
  }

  // The other contexts are as before, and context c has an engine.
  ghost predicate Elsewhere(w: World, w': World, c: Node) {
    && w'.views.Keys == w.views.Keys + {c}
    && (forall d :: d in w.views && d != c ==> w'.views[d] == w.views[d])
    && (forall d :: d != c ==> w'.Graph(d) == w.Graph(d))
  }

  // An engine for c exists and knows the triple, unless it may not enter
  // working memory.
  predicate Settled(w: World, q: Quad) {
    q.c in w.views && (Permitted(q.t) ==> q.t in w.views[q.c].known)
  }

  // The engine appeared, and what it deduced from the graph is in the graph.
  ghost predicate Ensured(w: World, w': World, c: Node) {
    && Elsewhere(w, w', c)
    && var v' := w'.views[c];
      if c in w.views then v' == w.views[c] && w'.Graph(c) == w.Graph(c)
      else
        && (forall t :: t in w'.Graph(c) && Permitted(t) ==> t in v'.known)
        && v'.stated <= w.Graph(c) && v'.lingering == {}
        && v'.stated <= v'.materialized <= v'.known
        && w.Graph(c) + v'.materialized == w'.Graph(c)
  }

  // The effect of an addition batch on its context. Every conclusion that
  // became visible is in the graph; the batch itself need not be there yet.
  ghost predicate Grown(w: World, w': World, c: Node, batch: set<Triple>) {
    && Elsewhere(w, w', c)
    && var v' := w'.views[c];
      && w.Graph(c) <= w'.Graph(c) <= w.Graph(c) + batch + v'.materialized
      && (forall t :: t in batch && Permitted(t) ==> t in v'.known)
      && if c in w.views then
           GrownView(w.views[c], v', batch, w.Graph(c), w'.Graph(c))
         else
           && (forall t :: t in w'.Graph(c) && Permitted(t) ==> t in v'.known)
           && v'.stated <= w.Graph(c) + batch && v'.lingering == {}
           && v'.stated <= v'.materialized <= v'.known
           && v'.materialized <= w'.Graph(c) + batch
  }

  ghost predicate GrownView(v: EngineView, v': EngineView, batch: set<Triple>, graph: set<Triple>,
      graph': set<Triple>) {
    var added := Admitted(batch, v.known);
    && v'.stated == v.stated + added && v'.lingering == v.lingering
    && v.known + added <= v'.known
    && v.materialized + added <= v'.materialized <= v.materialized + added + graph'
    && v'.materialized <= v'.known
    && (added == {} ==> v' == v && graph' <= graph + batch)
  }

  // The effect of adding quads. Where every quad was settled already, the
  // graphs gain the quads and nothing else happens.
  ghost predicate GraphsPlus(w: World, w': World, quads: seq<Quad>) {
    forall c :: w'.Graph(c) == w.Graph(c) + TriplesIn(quads, c)
  }

  function Enqueued(queue: map<Node, set<Triple>>, t: Triple, c: Node): map<Node, set<Triple>> {
    queue[c := Lookup(queue, c) + {t}]
  }

  // The quads that were not in their graphs have been queued.
  ghost predicate QueuedUp(w: World, w': World, quads: seq<Quad>) {
    forall c :: QueuedIn(w, w', c, TriplesIn(quads, c))
  }

  ghost predicate QueuedIn(w: World, w': World, c: Node, triples: set<Triple>) {
    && Lookup(w'.additions, c) == Lookup(w.additions, c) + (triples - w.Graph(c))
    && (c in w'.additions ==> c in w.additions || triples - w.Graph(c) != {})
  }

  // All that is queued is one batch of context c, which its engine knows.
  ghost predicate Follows(w: World, c: Node) {
    && w.additions.Keys <= {c} && c in w.views
    && Lookup(w.additions, c) <= w.views[c].known * w.Graph(c)
  }

  function ShownIn(w: World, c: Node): set<Triple> {
    if c in w.views then w.views[c].materialized else {}
  }

  // No engine forgot or withdrew anything, and the graphs gained nothing but
  // the quads and what the engines show.
  ghost predicate Expanded(w: World, w': World, quads: seq<Quad>) {
    forall c :: ExpandedIn(w, w', c, TriplesIn(quads, c))
  }

  ghost predicate ExpandedIn(w: World, w': World, c: Node, triples: set<Triple>) {
    && (c in w.views ==> c in w'.views && ExpandedView(w.views[c], w'.views[c], triples))
    && (c in w'.views && c !in w.views ==> triples != {})
    && w.Graph(c) <= w'.Graph(c) <= w.Graph(c) + triples + ShownIn(w', c)
  }

  ghost predicate ExpandedView(v: EngineView, v': EngineView, triples: set<Triple>) {
    && v.known <= v'.known && v.materialized <= v'.materialized
    && v.stated <= v'.stated <= v.stated + triples
    && v.lingering == v'.lingering
  }

  // Agreement

  // Every engine's visible facts are in its graph or on their way there, and
  // the engine knows every admissible triple of its graph.
  ghost predicate Sound(w: World, flight: seq<Quad>) {
    forall c :: c in w.views ==> Agrees(w.views[c], w.Graph(c), TriplesIn(flight, c))
  }

  ghost predicate Agrees(v: EngineView, graph: set<Triple>, flight: set<Triple>) {
    && v.stated + v.lingering <= v.materialized <= v.known
    && v.materialized <= graph + flight
    && forall t :: t in graph && Permitted(t) ==> t in v.known
  }

  // The quad will not disturb the agreement when it reaches its graph.
  ghost predicate Landing(w: World, q: Quad) {
    if q.c in w.views then Settled(w, q) else q.t in w.Graph(q.c)
  }

  lemma TriplesInPlus(quads: seq<Quad>, q: Quad)
    ensures forall c :: TriplesIn(quads + [q], c) == TriplesIn(quads, c) + if c == q.c then {q.t} else {}
  {
    forall c ensures TriplesIn(quads + [q], c) == TriplesIn(quads, c) + if c == q.c then {q.t} else {} {
      forall t | t in TriplesIn(quads, c) ensures t in TriplesIn(quads + [q], c) {
        var i :| 0 <= i < |quads| && quads[i].c == c && quads[i].t == t;
        assert (quads + [q])[i] == quads[i];
      }
      assert (quads + [q])[|quads|] == q;
    }
  }

  lemma WithQuadsPlus(w: World, w': World, quads: seq<Quad>)
    requires w'.graphs == WithQuads(w.graphs, quads)
    ensures GraphsPlus(w, w', quads)
  {
    forall c ensures w'.Graph(c) == w.Graph(c) + TriplesIn(quads, c) {
      if c !in w'.graphs {
        assert forall i :: 0 <= i < |quads| ==> quads[i].c in ContextsOf(quads);
      }
    }
  }

  // One addition event keeps the agreement, counting its triple as in flight.
  lemma GrownSound(w: World, w': World, flight: seq<Quad>, q: Quad)
    requires Sound(w, flight) && Grown(w, w', q.c, {q.t})
    requires forall p :: p in flight ==> Landing(w, p)
    ensures Sound(w', flight + [q])
    ensures forall p :: p in flight + [q] ==> Landing(w', p)
  {
    TriplesInPlus(flight, q);
    hide TriplesIn;
    GrownLanding(w, w', flight, q);
    forall d | d in w'.views ensures Agrees(w'.views[d], w'.Graph(d), TriplesIn(flight + [q], d)) {
      if d in w.views {
        assert Agrees(w.views[d], w.Graph(d), TriplesIn(flight, d));
      }
    }
  }

  lemma GrownLanding(w: World, w': World, flight: seq<Quad>, q: Quad)
    requires Grown(w, w', q.c, {q.t})
    requires forall p :: p in flight ==> Landing(w, p)
    ensures forall p :: p in flight + [q] ==> Landing(w', p)
  {
    forall p | p in flight + [q] ensures Landing(w', p) {
      if p in flight {
        assert Landing(w, p);
      }
    }
  }

  // An event for a triple that is there already changes nothing.
  lemma PresentSound(w: World, flight: seq<Quad>, q: Quad)
    requires Sound(w, flight) && q.t in w.Graph(q.c)
    requires forall p :: p in flight ==> Landing(w, p)
    ensures Sound(w, flight + [q])
    ensures forall p :: p in flight + [q] ==> Landing(w, p)
  {
    TriplesInPlus(flight, q);
    hide TriplesIn;
    forall d | d in w.views ensures Agrees(w.views[d], w.Graph(d), TriplesIn(flight + [q], d)) {
      assert Agrees(w.views[d], w.Graph(d), TriplesIn(flight, d));
    }
  }

  // When the quads in flight reach the graphs, the agreement is complete.
  lemma Landed(w: World, w': World, flight: seq<Quad>)
    requires Sound(w, flight) && w'.views == w.views && GraphsPlus(w, w', flight)
    requires forall p :: p in flight ==> Landing(w, p)
    ensures Sound(w', [])
  {
    forall c | c in w'.views ensures Agrees(w'.views[c], w'.Graph(c), TriplesIn([], c)) {
      assert Agrees(w.views[c], w.Graph(c), TriplesIn(flight, c));
      forall t | t in w'.Graph(c) && Permitted(t) ensures t in w.views[c].known {
        if t !in w.Graph(c) {
          var i :| 0 <= i < |flight| && flight[i].c == c && flight[i].t == t;
          assert Landing(w, flight[i]);
        }
      }
    }
  }

  // A further batch that the engine knows already changes nothing.
  lemma GrownSettled(w: World, w1: World, w2: World, c: Node, batch: set<Triple>, more: set<Triple>)
    requires Grown(w, w1, c, batch) && Grown(w1, w2, c, more)
    requires more <= w1.Graph(c) * w1.views[c].known
    ensures Grown(w, w2, c, batch)
  {
    assert Admitted(more, w1.views[c].known) == {};
    assert w2.Graph(c) == w1.Graph(c);
  }

  // The drain loop after so many batches. The first batch was the triple
  // alone, and a second one is already known to the engine.
  ghost predicate Draining(w: World, w': World, t: Triple, c: Node, round: nat) {
    && w.additions == map[c := {t}]
    && w'.handlingAddition && AdditionsOnly(w.(handlingAddition := true), w')
    && w'.additionBatches == w.additionBatches + round
    && (round == 0 ==> w' == w.(handlingAddition := true))
    && (round > 0 ==> Grown(w, w', c, {t}) && Follows(w', c))
    && (round >= 2 ==> w'.additions == map[])
  }

  lemma DrainStarts(w: World, w': World, t: Triple, c: Node)
    requires w.additions == map[c := {t}] && w' == w.(handlingAddition := true)
    ensures Draining(w, w', t, c, 0)
  {
  }

  lemma DrainMore(w: World, w': World, t: Triple, c: Node, round: nat)
    requires Draining(w, w', t, c, round) && w'.additions != map[]
    ensures round < 2 && w'.handlingAddition && w'.additions.Keys == {c} && w'.additions - {c} == map[]
  {
    hide Grown;
  }

  lemma DrainEnds(w: World, w': World, t: Triple, c: Node, round: nat)
    requires Draining(w, w', t, c, round) && w'.additions == map[]
    ensures AdditionsOnly(w.(handlingAddition := true), w') && 0 < round
    ensures Grown(w, w'.(additions := map[], handlingAddition := false), c, {t})
    ensures w'.additionBatches == w.additionBatches + round
  {
    assert round == 0 ==> c in w'.additions;
  }

  lemma DrainStep(w: World, w0: World, wd: World, w1: World, t: Triple, c: Node, round: nat, batch: set<Triple>)
    requires Draining(w, w0, t, c, round) && w0.additions != map[] && c in w0.additions && batch == w0.additions[c]
    requires wd == w0.(additions := map[], additionBatches := w0.additionBatches + 1)
    requires AdditionsOnly(wd, w1) && w1.additionBatches == wd.additionBatches
    requires if batch == {} then w1 == wd else Grown(wd, w1, c, batch) && Follows(w1, c)
    requires c in wd.views && Admitted(batch, wd.views[c].known) == {} ==> w1.additions == map[]
    ensures Draining(w, w1, t, c, round + 1)
  {
    hide Grown;
    DrainMore(w, w0, t, c, round);
    if round == 0 {
      GrownAlike(w, wd, w1, c, {t});
    } else {
      assert Admitted(batch, wd.views[c].known) == {};
      FollowUp(w, w0, wd, w1, c, {t}, batch);
    }
  }

  // Growth speaks of graphs and views only.
  lemma GrownAlike(w: World, w0: World, w1: World, c: Node, batch: set<Triple>)
    requires w0.graphs == w.graphs && w0.views == w.views && Grown(w0, w1, c, batch)
    ensures Grown(w, w1, c, batch)
  {
  }

  lemma FollowUp(w: World, w0: World, wd: World, w1: World, c: Node, batch: set<Triple>, more: set<Triple>)
    requires Grown(w, w0, c, batch) && wd.graphs == w0.graphs && wd.views == w0.views
    requires if more == {} then w1 == wd else Grown(wd, w1, c, more)
    requires more <= w0.Graph(c) * w0.views[c].known
    ensures Grown(w, w1, c, batch)
  {
    if more == {} {
    } else {
      GrownAlike(w0, wd, w1, c, more);
      GrownSettled(w, w0, w1, c, batch, more);
    }
  }

  // Adding quads, event by event

  // No engine changed, and the graphs gained some of the quads at most.
  ghost predicate Steady(w: World, w': World, quads: seq<Quad>) {
    && w'.views == w.views
    && forall c :: w.Graph(c) <= w'.Graph(c) <= w.Graph(c) + TriplesIn(quads, c)
  }

  // What one event makes of the world: w0 before, w1 after.
  ghost predicate AdditionEvent(w0: World, w1: World, q: Quad) {
    if q.t in w0.Graph(q.c) then w1 == w0
    else if w0.handlingAddition then w1 == w0.(additions := Enqueued(w0.additions, q.t, q.c))
    else Grown(w0, w1, q.c, {q.t})
  }

  lemma QueuedStep(w: World, w0: World, w1: World, sent: seq<Quad>, q: Quad)
    requires AdditionEvent(w0, w1, q) && w0.handlingAddition
    requires w0.graphs == w.graphs && QueuedUp(w, w0, sent)
    ensures QueuedUp(w, w1, sent + [q])
  {
    TriplesInPlus(sent, q);
    hide TriplesIn;
    forall c ensures QueuedIn(w, w1, c, TriplesIn(sent + [q], c)) {
      QueuedInStep(w, w0, w1, c, TriplesIn(sent, c), q);
    }
  }

  lemma QueuedInStep(w: World, w0: World, w1: World, c: Node, triples: set<Triple>, q: Quad)
    requires AdditionEvent(w0, w1, q) && w0.handlingAddition
    requires w0.graphs == w.graphs && QueuedIn(w, w0, c, triples)
    ensures QueuedIn(w, w1, c, triples + if c == q.c then {q.t} else {})
  {
    hide Grown;
    var more := triples + if c == q.c then {q.t} else {};
    if q.t in w0.Graph(q.c) {
      assert more - w.Graph(c) == triples - w.Graph(c);
    } else if c == q.c {
      assert more - w.Graph(c) == (triples - w.Graph(c)) + {q.t};
    }
  }

  lemma SteadyStep(w: World, w0: World, w1: World, sent: seq<Quad>, q: Quad)
    requires AdditionEvent(w0, w1, q) && !w0.handlingAddition
    requires Settled(w, q) && Steady(w, w0, sent)
    ensures Steady(w, w1, sent + [q])
  {
    TriplesInPlus(sent, q);
    hide TriplesIn;
    if q.t !in w0.Graph(q.c) {
      assert Admitted({q.t}, w0.views[q.c].known) == {};
      assert w1.views == w0.views;
    }
  }

  ghost predicate Adding(w: World, w0: World, sent: seq<Quad>) {
    Sound(w0, sent) && Expanded(w, w0, sent) && forall p :: p in sent ==> Landing(w0, p)
  }

  lemma AddingStep(w: World, w0: World, w1: World, sent: seq<Quad>, q: Quad)
    requires AdditionEvent(w0, w1, q) && !w0.handlingAddition && Adding(w, w0, sent)
    ensures Adding(w, w1, sent + [q])
  {
    if q.t in w0.Graph(q.c) {
      PresentSound(w0, sent, q);
    } else {
      GrownSound(w0, w1, sent, q);
    }
    ExpandedStep(w, w0, w1, sent, q);
  }

  // What the loop over the quads keeps, event by event.
  ghost predicate Progress(w: World, w0: World, quads: seq<Quad>, sent: seq<Quad>) {
    if w.handlingAddition then
      w0.views == w.views && w0.graphs == w.graphs && w0.additionBatches == w.additionBatches && QueuedUp(w, w0, sent)
    else
      && ((forall q :: q in quads ==> Settled(w, q)) ==> Steady(w, w0, sent))
      && (Sound(w, []) ==> Adding(w, w0, sent))
  }

  lemma ProgressStarts(w: World, quads: seq<Quad>)
    ensures Progress(w, w, quads, [])
  {
  }

  lemma ProgressStep(w: World, w0: World, w1: World, quads: seq<Quad>, sent: seq<Quad>, q: Quad)
    requires Progress(w, w0, quads, sent) && AdditionEvent(w0, w1, q) && q in quads
    requires w0.handlingAddition == w.handlingAddition
    ensures Progress(w, w1, quads, sent + [q])
  {
    hide QueuedUp, Settled, Steady, Adding, Sound, Grown;
    if w.handlingAddition {
      QueuedStep(w, w0, w1, sent, q);
    } else {
      if forall q :: q in quads ==> Settled(w, q) {
        SteadyStep(w, w0, w1, sent, q);
      }
      if Sound(w, []) {
        AddingStep(w, w0, w1, sent, q);
      }
    }
  }

  // The quads reach their graphs.
  lemma ProgressEnds(w: World, w1: World, w2: World, quads: seq<Quad>)
    requires Progress(w, w1, quads, quads)
    requires w2.views == w1.views && GraphsPlus(w1, w2, quads) && w2.additions == w1.additions
    ensures w.handlingAddition ==>
      && w2.views == w.views && w1.additionBatches == w.additionBatches
      && GraphsPlus(w, w2, quads) && QueuedUp(w, w2, quads)
    ensures !w.handlingAddition && (forall q :: q in quads ==> Settled(w, q)) ==>
      w2.views == w.views && GraphsPlus(w, w2, quads)
    ensures !w.handlingAddition && Sound(w, []) ==> Sound(w2, []) && Expanded(w, w2, quads)
  {
    hide Sound, Steady, Expanded, Landing, Settled, GraphsPlus;
    if w.handlingAddition {
      SameGraphsPlus(w, w1, w2, quads);
    } else {
      if forall q :: q in quads ==> Settled(w, q) {
        SteadyLands(w, w1, w2, quads);
        assert w2.views == w.views by { SteadyViews(w, w1, quads); }
      }
      if Sound(w, []) {
        Landed(w1, w2, quads);
        ExpandedLands(w, w1, w2, quads);
      }
    }
  }

  lemma SteadyViews(w: World, w1: World, quads: seq<Quad>)
    requires Steady(w, w1, quads)
    ensures w1.views == w.views
  {
  }

  lemma SameGraphsPlus(w: World, w1: World, w2: World, quads: seq<Quad>)
    requires w1.graphs == w.graphs && w1.views == w.views && GraphsPlus(w1, w2, quads)
    requires QueuedUp(w, w1, quads) && w2.additions == w1.additions
    ensures GraphsPlus(w, w2, quads) && QueuedUp(w, w2, quads)
  {
    hide TriplesIn;
    forall c ensures QueuedIn(w, w2, c, TriplesIn(quads, c)) {
      assert QueuedIn(w, w1, c, TriplesIn(quads, c));
    }
  }

  lemma ExpandedStep(w: World, w0: World, w1: World, sent: seq<Quad>, q: Quad)
    requires Expanded(w, w0, sent) && AdditionEvent(w0, w1, q) && !w0.handlingAddition
    ensures Expanded(w, w1, sent + [q])
  {
    TriplesInPlus(sent, q);
    hide TriplesIn;
    forall c ensures ExpandedIn(w, w1, c, TriplesIn(sent + [q], c)) {
      assert ExpandedIn(w, w0, c, TriplesIn(sent, c));
    }
  }

  lemma ExpandedLands(w: World, w1: World, w2: World, quads: seq<Quad>)
    requires Expanded(w, w1, quads) && w2.views == w1.views && GraphsPlus(w1, w2, quads)
    ensures Expanded(w, w2, quads)
  {
    hide TriplesIn;
    forall c ensures ExpandedIn(w, w2, c, TriplesIn(quads, c)) {
      assert ExpandedIn(w, w1, c, TriplesIn(quads, c));
    }
  }

  lemma SteadyLands(w: World, w1: World, w2: World, quads: seq<Quad>)
    requires Steady(w, w1, quads) && w2.views == w1.views && GraphsPlus(w1, w2, quads)
    ensures GraphsPlus(w, w2, quads)
  {
    hide TriplesIn;
  }

  // Warming, saturating and writing back add up to growth.
  lemma ProducedGrown(w: World, w1: World, w2: World, w3: World, c: Node, batch: set<Triple>, shown: set<Triple>,
      produced: seq<Quad>)
    requires Ensured(w, w1, c) && (c in w.views ==> w1 == w)
    requires OnlyView(w1, w2, c) && EngineAdded(w1.views[c], w2.views[c], batch, shown)
    requires w3.views == w2.views && GraphsPlus(w2, w3, produced)
    requires forall q :: q in produced <==> q.c == c && q.t in shown - w2.Graph(c)
    ensures Grown(w, w3, c, batch)
  {
    assert TriplesIn(produced, c) == shown - w2.Graph(c) by { OneContext(produced, c, shown - w2.Graph(c)); }
    forall d | d != c ensures w3.Graph(d) == w.Graph(d) {
      assert TriplesIn(produced, d) == {} by { OneContext(produced, c, shown - w2.Graph(c)); }
    }
  }

  lemma AlreadyEnsured(w: World, c: Node)
    ensures c in w.views ==> Ensured(w, w, c)
    ensures c in w.views && w.additions == map[] ==> Follows(w, c)
  {
  }

  // What was deduced from the graph reaches the graph. Every deduction is known
  // already, so adding it triggers nothing.
  lemma WarmedEnsured(w: World, w1: World, w2: World, c: Node, shown: set<Triple>, deduced: seq<Quad>)
    requires AddedView(w, w1, c) && EngineWarmed(w1.views[c], w.Graph(c), shown) && w.additions == map[]
    requires forall q :: q in deduced <==> q.c == c && q.t in shown
    requires w1.handlingAddition ==> w2.views == w1.views && GraphsPlus(w1, w2, deduced) && QueuedUp(w1, w2, deduced)
    requires !w1.handlingAddition && (forall q :: q in deduced ==> Settled(w1, q)) ==>
      w2.views == w1.views && GraphsPlus(w1, w2, deduced)
    ensures Ensured(w, w2, c) && c in w2.views
    ensures w1.handlingAddition ==> Follows(w2, c)
  {
    OneContext(deduced, c, shown);
    hide TriplesIn;
    assert forall q :: q in deduced ==> Settled(w1, q);
    if w1.handlingAddition {
      assert QueuedIn(w1, w2, c, shown);
      forall d | d in w2.additions ensures d == c {
        assert QueuedIn(w1, w2, d, TriplesIn(deduced, d));
      }
    }
  }

  // What was produced follows as one batch that the engine knows.
  lemma ProducedFollows(w1: World, w2: World, w3: World, c: Node, batch: set<Triple>, shown: set<Triple>,
      produced: seq<Quad>)
    requires Follows(w1, c)
    requires OnlyView(w1, w2, c) && EngineAdded(w1.views[c], w2.views[c], batch, shown)
    requires w3.views == w2.views && GraphsPlus(w2, w3, produced) && QueuedUp(w2, w3, produced)
    requires forall q :: q in produced <==> q.c == c && q.t in shown - w2.Graph(c)
    ensures Follows(w3, c)
    ensures Admitted(batch, w1.views[c].known) == {} && w1.additions == map[] ==> w3.additions == map[]
  {
    OneContext(produced, c, shown - w2.Graph(c));
    hide TriplesIn;
    assert QueuedIn(w2, w3, c, TriplesIn(produced, c));
    forall d | d in w3.additions ensures d == c && (d in w1.additions || shown != {}) {
      assert QueuedIn(w2, w3, d, TriplesIn(produced, d));
    }
  }

  lemma OneContext(quads: seq<Quad>, c: Node, triples: set<Triple>)
    requires forall q :: q in quads <==> q.c == c && q.t in triples
    ensures forall d :: TriplesIn(quads, d) == if d == c then triples else {}
  {
    forall t | t in triples ensures t in TriplesIn(quads, c) {
      assert Quad(t, c) in quads;
    }
    forall d, t | t in TriplesIn(quads, d) ensures d == c && t in triples {
      var i :| 0 <= i < |quads| && quads[i].c == d && quads[i].t == t;
      assert quads[i] in quads;
    }
  }

  // Adding one triple: the event, and then the triple reaches its graph.
  lemma AddedOne(w: World, w1: World, w2: World, t: Triple, c: Node)
    requires t !in w.Graph(c) && Grown(w, w1, c, {t})
    requires w2.views == w1.views && GraphsPlus(w1, w2, [Quad(t, c)])
    ensures Grown(w, w2, c, {t}) && t in w2.Graph(c)
    ensures Sound(w, []) ==> Sound(w2, [])
  {
    hide Grown, Sound;
    OnePlus(w1, w2, t, c);
    GrownPlus(w, w1, w2, t, c);
    if Sound(w, []) {
      GrownSound(w, w1, [], Quad(t, c));
      assert [] + [Quad(t, c)] == [Quad(t, c)];
      Landed(w1, w2, [Quad(t, c)]);
    }
  }

  lemma OnePlus(w: World, w2: World, t: Triple, c: Node)
    requires GraphsPlus(w, w2, [Quad(t, c)])
    ensures forall d :: w2.Graph(d) == w.Graph(d) + if d == c then {t} else {}
  {
    TriplesInPlus([], Quad(t, c));
    assert [] + [Quad(t, c)] == [Quad(t, c)];
    assert forall d :: TriplesIn([], d) == {};
    hide TriplesIn;
  }

  lemma GrownPlus(w: World, w1: World, w2: World, t: Triple, c: Node)
    requires Grown(w, w1, c, {t}) && w2.views == w1.views
    requires forall d :: w2.Graph(d) == w1.Graph(d) + if d == c then {t} else {}
    ensures Grown(w, w2, c, {t})
  {
    assert w2.Graph(c) == w1.Graph(c) + {t};
  }

  lemma PresentPlus(w: World, w2: World, t: Triple, c: Node)
    requires t in w.Graph(c) && w2.views == w.views && GraphsPlus(w, w2, [Quad(t, c)])
    ensures forall d :: w2.Graph(d) == w.Graph(d)
    ensures Sound(w, []) ==> Sound(w2, [])
  {
    OnePlus(w, w2, t, c);
    hide TriplesIn, Agrees;
  }

  // Removals

  // Only what a removal may change has changed.
  ghost predicate RemovalsOnly(w: World, w': World) {
    w' == w.(graphs := w'.graphs, views := w'.views, additionBatches := w'.additionBatches, removals := w'.removals,
      removalBatches := w'.removalBatches, pending := w'.pending)
  }

  function Without(graphs: map<Node, set<Triple>>, t: Triple, c: Node): map<Node, set<Triple>> {
    if c in graphs then graphs[c := graphs[c] - {t}] else graphs
  }

  // Facts the engine of c no longer has.
  function Lost(w: World, w': World, c: Node): set<Triple>
    requires c in w.views && c in w'.views
  {
    w.views[c].known - w'.views[c].known
  }

  // Every context holds the same triples and every engine the same facts.
  ghost predicate SameContent(w: World, w': World) {
    w'.views == w.views && forall d :: w'.Graph(d) == w.Graph(d)
  }

  // A removal nested in the handling of another one: the triple leaves its
  // graph, and if it was there its event is queued.
  ghost predicate NestedRemoval(w: World, w': World, t: Triple, c: Node) {
    && w' == w.(graphs := w'.graphs, removals := if t in w.Graph(c) then Enqueued(w.removals, t, c) else w.removals)
    && forall d :: w'.Graph(d) == w.Graph(d) - if d == c then {t} else {}
  }

  // The world in which the engine of c existed, before anything was retracted.
  ghost predicate Readied(w: World, warm: World, c: Node) {
    Ensured(w, warm, c) && warm.pending == w.pending && warm.warnings == w.warnings
  }

  // The effect of a removal batch: the engine retracted it, what else was lost
  // has left the graph and is queued, and what the engine kept is pending.
  ghost predicate BatchRetracted(prog: Program, w: World, w': World, c: Node, batch: set<Triple>) {
    && c in w.views && Elsewhere(w, w', c)
    && EngineRetracted(prog, w.views[c], w'.views[c], batch, Lost(w, w', c))
    && w'.Graph(c) == w.Graph(c) - (Lost(w, w', c) - batch)
    && w'.removals.Keys <= {c} && Lookup(w'.removals, c) == (Lost(w, w', c) - batch) * w.Graph(c)
    && (c in w'.removals ==> w'.removals[c] != {})
    && w'.pending == Awaiting(w.pending, c, batch * w'.views[c].known)
  }

  // What is pending already stays, in this context and in every other.
  function Awaiting(pending: map<Node, set<Triple>>, c: Node, triples: set<Triple>): (r: map<Node, set<Triple>>)
    ensures forall k :: Lookup(r, k) == Lookup(pending, k) + (if k == c then triples else {})
    ensures r.Keys == pending.Keys + (if triples == {} then {} else {c})
  {
    if triples == {} then pending else pending[c := Lookup(pending, c) + triples]
  }

  // The effect of the event for one triple, the triple itself still in place.
  ghost predicate Cascaded(prog: Program, w: World, w': World, t: Triple, c: Node) {
    && c in w.views && Elsewhere(w, w', c)
    && EngineRetracted(prog, w.views[c], w'.views[c], {t}, Lost(w, w', c))
    && w'.Graph(c) == w.Graph(c) - (Lost(w, w', c) - {t})
    && w'.pending == Awaiting(w.pending, c, {t} * w'.views[c].known)
  }

  // The engine still holds the triple after its retraction: it knew the triple,
  // and the triple was not stated or some rule instance concludes it.
  ghost predicate Survives(prog: Program, v: EngineView, t: Triple) {
    t in v.known && (t in v.stated ==> Derivable(prog, true, v.known, t))
  }

  // What removing the triple does to the context, from where its engine existed.
  ghost predicate Removed(prog: Program, w: World, w': World, t: Triple, c: Node) {
    && c in w.views && Elsewhere(w, w', c)
    && var v, v' := w.views[c], w'.views[c];
      && v'.stated == v.stated - {t} && LostAlone(prog, v, t, v.known - v'.known)
      && if Survives(prog, v, t) then
           && v'.known == v.known && v'.materialized == v.materialized
           && v'.lingering == v.lingering + v.stated * {t}
           && w'.Graph(c) == w.Graph(c)
           && w'.warnings == w.warnings + [Quad(t, c)]
         else
           && t !in v'.known && v'.known <= v.known
           && v'.materialized == v.materialized * v'.known
           && v'.lingering == v.lingering * v'.known
           && w'.Graph(c) == w.Graph(c) - (v.known - v'.known) - {t}
           && w'.warnings == w.warnings
  }

  lemma EnsuredSound(w: World, w': World, c: Node)
    requires Sound(w, []) && Ensured(w, w', c)
    ensures Sound(w', [])
  {
    hide TriplesIn;
    forall d | d in w'.views ensures Agrees(w'.views[d], w'.Graph(d), TriplesIn([], d)) {
      if d in w.views {
        assert Agrees(w.views[d], w.Graph(d), TriplesIn([], d));
      }
    }
  }

  lemma EnsuredViews(w: World, w': World, c: Node)
    requires Ensured(w, w', c)
    ensures w'.views.Keys == w.views.Keys + {c}
  {
  }

  lemma RemovedSound(prog: Program, w: World, w': World, t: Triple, c: Node)
    requires Sound(w, []) && Removed(prog, w, w', t, c) && w'.views[c].stated <= w'.views[c].known
    ensures Sound(w', [])
  {
    assert forall d :: TriplesIn([], d) == {};
    hide TriplesIn, Survives;
    forall d | d in w'.views ensures Agrees(w'.views[d], w'.Graph(d), TriplesIn([], d)) {
      assert Agrees(w.views[d], w.Graph(d), TriplesIn([], d));
    }
  }

  // The cascade of one batch leaves the graph, one nested removal at a time.
  ghost predicate Cascading(w: World, w': World, c: Node, gone: set<Triple>) {
    && w' == w.(graphs := w'.graphs, removals := w'.removals)
    && (forall d :: w'.Graph(d) == w.Graph(d) - if d == c then gone else {})
    && w'.removals.Keys <= {c} && Lookup(w'.removals, c) == gone * w.Graph(c)
    && (c in w'.removals ==> w'.removals[c] != {})
  }

  lemma CascadeStarts(w: World, c: Node)
    requires w.removals == map[]
    ensures Cascading(w, w, c, {})
  {
  }

  lemma CascadeStep(w: World, w0: World, w1: World, c: Node, gone: set<Triple>, t: Triple)
    requires Cascading(w, w0, c, gone) && t !in gone && NestedRemoval(w0, w1, t, c)
    ensures Cascading(w, w1, c, gone + {t})
  {
    assert w1.Graph(c) == w.Graph(c) - (gone + {t});
    assert Lookup(w1.removals, c) == (gone + {t}) * w.Graph(c);
  }

  // The retraction of a batch and the removal of its cascade together.
  lemma BatchEnds(prog: Program, w: World, w1: World, w2: World, w3: World, c: Node, batch: set<Triple>,
      cascade: set<Triple>)
    requires OnlyView(w, w1, c) && EngineRetracted(prog, w.views[c], w1.views[c], batch, cascade)
    requires w.removals == map[] && Cascading(w1, w2, c, cascade - batch)
    requires w3 == w2.(pending := Awaiting(w.pending, c, batch * w1.views[c].known))
    ensures BatchRetracted(prog, w, w3, c, batch) && RemovalsOnly(w, w3)
  {
    hide EngineRetracted;
    assert Lost(w, w3, c) == cascade by { RetractedLost(prog, w.views[c], w1.views[c], batch, cascade); }
    assert forall d :: w1.Graph(d) == w.Graph(d) && w3.Graph(d) == w2.Graph(d);
  }

  lemma RetractedLost(prog: Program, v: EngineView, v': EngineView, batch: set<Triple>, cascade: set<Triple>)
    requires EngineRetracted(prog, v, v', batch, cascade)
    ensures v.known - v'.known == cascade
  {
    hide Derivable;
  }

  // Triples the engine does not know are retracted without effect.
  lemma NothingLeft(prog: Program, w: World, w': World, c: Node, batch: set<Triple>)
    requires BatchRetracted(prog, w, w', c, batch)
    requires batch !! w.views[c].known && w.views[c].stated + w.views[c].lingering <= w.views[c].known
    ensures SameContent(w, w') && w'.pending == w.pending && w'.removals == map[]
  {
    hide Derivable;
    var v, v' := w.views[c], w'.views[c];
    assert batch * v.stated == {} && batch * v'.known == {};
    assert Lost(w, w', c) == {};
    assert v' == v;
    assert w'.views == w.views;
  }

  // The drain loop of removals after so many batches. The first batch is the
  // triple alone; the second one, its cascade, finds nothing left to retract.
  ghost predicate Shrinking(prog: Program, w: World, warm: World, w': World, t: Triple, c: Node, round: nat) {
    && w.removals == map[c := {t}]
    && w'.handlingRemoval && RemovalsOnly(w.(handlingRemoval := true), w')
    && w'.removalBatches == w.removalBatches + round
    && (round == 0 ==> w' == w.(handlingRemoval := true))
    && (round > 0 ==> Readied(w, warm, c) && Cascaded(prog, warm, w', t, c))
    && (round > 0 ==> w'.removals.Keys <= {c} && Lookup(w'.removals, c) <= Lost(warm, w', c) - {t})
    && (round >= 2 ==> w'.removals == map[])
  }

  lemma ShrinkStarts(prog: Program, w: World, w': World, t: Triple, c: Node)
    requires w.removals == map[c := {t}] && w' == w.(handlingRemoval := true)
    ensures Shrinking(prog, w, w, w', t, c, 0)
  {
  }

  lemma ShrinkMore(prog: Program, w: World, warm: World, w': World, t: Triple, c: Node, round: nat)
    requires Shrinking(prog, w, warm, w', t, c, round) && w'.removals != map[]
    ensures round < 2 && w'.removals.Keys == {c} && w'.removals - {c} == map[]
    ensures RemovalsOnly(w.(handlingRemoval := true), w')
  {
    hide Cascaded, Ensured;
  }

  lemma ShrinkFirst(prog: Program, w: World, w0: World, wd: World, warm: World, w1: World, t: Triple, c: Node)
    requires Shrinking(prog, w, w, w0, t, c, 0)
    requires wd == w0.(removals := map[], removalBatches := w0.removalBatches + 1)
    requires RemovalsOnly(wd, w1) && w1.removalBatches == wd.removalBatches
    requires Readied(wd, warm, c) && BatchRetracted(prog, warm, w1, c, {t})
    ensures Shrinking(prog, w, warm, w1, t, c, 1)
  {
    hide EngineRetracted;
  }

  lemma ShrinkSecond(prog: Program, w: World, warm: World, w0: World, wd: World, warm1: World, w1: World,
      t: Triple, c: Node, batch: set<Triple>)
    requires Shrinking(prog, w, warm, w0, t, c, 1) && w0.removals != map[] && batch == Lookup(w0.removals, c)
    requires wd == w0.(removals := map[], removalBatches := w0.removalBatches + 1)
    requires RemovalsOnly(wd, w1) && w1.removalBatches == wd.removalBatches
    requires if batch == {} then w1 == wd
             else Readied(wd, warm1, c) && BatchRetracted(prog, warm1, w1, c, batch)
    ensures Shrinking(prog, w, warm, w1, t, c, 2)
  {
    hide BatchRetracted, Cascaded;
    if batch != {} {
      SecondBatch(prog, warm, w0, wd, warm1, w1, t, c, batch);
    }
    CascadedAlike(prog, warm, w0, w1, t, c);
  }

  lemma SecondBatch(prog: Program, warm: World, w0: World, wd: World, warm1: World, w1: World, t: Triple, c: Node,
      batch: set<Triple>)
    requires Cascaded(prog, warm, w0, t, c) && batch <= Lost(warm, w0, c) - {t}
    requires wd.graphs == w0.graphs && wd.views == w0.views && wd.pending == w0.pending
    requires Readied(wd, warm1, c) && BatchRetracted(prog, warm1, w1, c, batch)
    ensures SameContent(w0, w1) && w1.pending == w0.pending && w1.removals == map[]
  {
    hide BatchRetracted;
    CascadedInside(prog, warm, w0, t, c);
    assert SameContent(w0, warm1) by { hide Cascaded; EnsuredSame(wd, warm1, c); }
    hide Cascaded, Ensured;
    NothingLeft(prog, warm1, w1, c, batch);
  }

  lemma EnsuredSame(w: World, w1: World, c: Node)
    requires Ensured(w, w1, c) && c in w.views
    ensures SameContent(w, w1)
  {
    assert w1.views == w.views;
  }

  lemma ShrinkStep(prog: Program, w: World, warm: World, w0: World, wd: World, warm1: World, w1: World, t: Triple,
      c: Node, round: nat, batch: set<Triple>)
    requires Shrinking(prog, w, warm, w0, t, c, round) && w0.removals != map[] && batch == Lookup(w0.removals, c)
    requires round == 0 ==> warm == w
    requires wd == w0.(removals := map[], removalBatches := w0.removalBatches + 1)
    requires RemovalsOnly(wd, w1) && w1.removalBatches == wd.removalBatches
    requires if batch == {} then w1 == wd
             else Readied(wd, warm1, c) && BatchRetracted(prog, warm1, w1, c, batch)
    ensures Shrinking(prog, w, if round > 0 then warm else warm1, w1, t, c, round + 1)
  {
    hide Readied, BatchRetracted, Cascaded;
    if round == 0 {
      assert batch == {t};
      ShrinkFirst(prog, w, w0, wd, warm1, w1, t, c);
    } else if round == 1 {
      ShrinkSecond(prog, w, warm, w0, wd, warm1, w1, t, c, batch);
    }
  }

  lemma ShrinkEnds(prog: Program, w: World, warm: World, w': World, t: Triple, c: Node, round: nat)
    requires Shrinking(prog, w, warm, w', t, c, round) && w'.removals == map[]
    ensures RemovalsOnly(w.(handlingRemoval := true), w') && w'.removalBatches == w.removalBatches + round
    ensures round > 0 && Readied(w, warm, c)
    ensures Cascaded(prog, warm, w'.(removals := map[], handlingRemoval := false), t, c)
  {
    assert round == 0 ==> c in w'.removals;
    var w'' := w'.(removals := map[], handlingRemoval := false);
    assert SameContent(w', w'');
    CascadedAlike(prog, warm, w', w'', t, c);
  }

  lemma ReadiedAlike(w: World, w0: World, warm: World, c: Node)
    requires Readied(w0, warm, c) && w0.graphs == w.graphs && w0.views == w.views
    requires w0.pending == w.pending && w0.warnings == w.warnings
    ensures Readied(w, warm, c)
  {
  }

  lemma CascadedInside(prog: Program, w: World, w': World, t: Triple, c: Node)
    requires Cascaded(prog, w, w', t, c)
    ensures w'.views[c].stated + w'.views[c].lingering <= w'.views[c].known
  {
    hide Derivable;
  }

  lemma CascadedAlike(prog: Program, w: World, w0: World, w1: World, t: Triple, c: Node)
    requires Cascaded(prog, w, w0, t, c) && SameContent(w0, w1) && w1.pending == w0.pending
    ensures Cascaded(prog, w, w1, t, c)
  {
    hide EngineRetracted;
  }

  // Re-adding what the engines kept

  // Every pending triple of a context with an engine is one the engine holds.
  predicate Kept(w: World) {
    forall c :: c in w.pending && c in w.views ==> w.pending[c] <= w.views[c].known
  }

  function Returning(w: World, c: Node): set<Triple> {
    if c in w.views then Lookup(w.pending, c) else {}
  }

  // The quads to return, each exactly once.
  ghost predicate Lists(w: World, order: seq<Quad>) {
    && (forall q :: q in order <==> q.t in Returning(w, q.c))
    && (forall i, k :: 0 <= i < |order| && 0 <= k < |order| && order[i] == order[k] ==> i == k)
  }

  ghost predicate Flushed(w: World, w': World, order: seq<Quad>) {
    && w' == w.(graphs := w'.graphs, additionBatches := w'.additionBatches, pending := map[], warnings := w.warnings + order)
    && forall c :: w'.Graph(c) == w.Graph(c) + TriplesIn(order, c)
  }

  lemma FlushStarts(w: World, w': World)
    requires w' == w.(pending := map[])
    ensures Flushed(w, w', [])
  {
    assert forall c :: TriplesIn([], c) == {};
    assert w.warnings + [] == w.warnings;
    hide TriplesIn;
  }

  // Re-adding a triple the engine holds touches nothing but its graph.
  lemma FlushStep(w: World, w0: World, w1: World, w2: World, done: seq<Quad>, q: Quad)
    requires Flushed(w, w0, done) && q.c in w.views && q.t in w.views[q.c].known
    requires w1 == w0.(warnings := w0.warnings + [q])
    requires AdditionsOnly(w1, w2) && w2.additions == w1.additions
    requires q.t in w1.Graph(q.c) ==> w2.views == w1.views && forall d :: w2.Graph(d) == w1.Graph(d)
    requires q.t !in w1.Graph(q.c) ==> Grown(w1, w2, q.c, {q.t}) && q.t in w2.Graph(q.c)
    ensures Flushed(w, w2, done + [q])
  {
    TriplesInPlus(done, q);
    hide TriplesIn;
    assert w.warnings + done + [q] == w.warnings + (done + [q]);
    if q.t !in w1.Graph(q.c) {
      assert Admitted({q.t}, w1.views[q.c].known) == {};
      assert w2.views == w1.views;
      assert w2.Graph(q.c) == w1.Graph(q.c) + {q.t};
    }
  }

  lemma FlushEnds(w: World, w': World, order: seq<Quad>)
    requires Flushed(w, w', order) && Lists(w, order)
    ensures forall c :: w'.Graph(c) == w.Graph(c) + Returning(w, c)
  {
    forall c ensures TriplesIn(order, c) == Returning(w, c) {
      forall t | t in Returning(w, c) ensures t in TriplesIn(order, c) {
        assert Quad(t, c) in order;
      }
      forall t | t in TriplesIn(order, c) ensures t in Returning(w, c) {
        var i :| 0 <= i < |order| && order[i].c == c && order[i].t == t;
        assert order[i] in order;
      }
    }
  }

  // The triple leaves its graph, and if the engine kept it, it returns.
  lemma CascadedRemoved(prog: Program, w: World, w1: World, w2: World, w3: World, t: Triple, c: Node, order: seq<Quad>)
    requires Cascaded(prog, w, w1, t, c) && w.pending == map[] && t in w.Graph(c) && w1.warnings == w.warnings
    requires w2.views == w1.views && w2.pending == w1.pending && w2.warnings == w1.warnings
    requires forall d :: w2.Graph(d) == w1.Graph(d) - if d == c then {t} else {}
    requires Flushed(w2, w3, order) && Lists(w2, order)
    ensures Removed(prog, w, w3, t, c)
  {
    FlushEnds(w2, w3, order);
    OneReturns(w2, order, t, c, w1.views[c].known);
    assert w1.warnings + [] == w1.warnings;
    hide TriplesIn, Lists, Cascaded, Removed;
    KeptOrGone(prog, w, w1, w3, t, c);
  }

  lemma KeptOrGone(prog: Program, w: World, w1: World, w3: World, t: Triple, c: Node)
    requires Cascaded(prog, w, w1, t, c) && t in w.Graph(c) && w3.views == w1.views
    requires forall d :: w3.Graph(d) == if d != c then w1.Graph(d) else if t in w1.views[c].known then w1.Graph(c) + {t} else w1.Graph(c) - {t}
    requires w3.warnings == if t in w1.views[c].known then w.warnings + [Quad(t, c)] else w.warnings
    ensures Removed(prog, w, w3, t, c)
  {
    hide Derivable, SweptFrom;
    var v, v', lost := w.views[c], w3.views[c], Lost(w, w1, c);
    assert lost == v.known - v'.known;
    assert v.stated * {t} == (if t in v.stated then {t} else {});
    if Survives(prog, v, t) {
      assert lost == {};
      assert w3.Graph(c) == w.Graph(c);
      assert v'.lingering == v.lingering + v.stated * {t};
    } else {
      assert t !in v'.known;
      assert w3.Graph(c) == w.Graph(c) - lost - {t};
      assert v'.lingering == v.lingering * v'.known;
    }
  }

  lemma FirstListed(w: World, order: seq<Quad>)
    requires Lists(w, order) && order != []
    ensures order[0].t in Returning(w, order[0].c)
  {
    assert order[0] in order;
  }

  lemma OnlyListed(w: World, order: seq<Quad>, q: Quad)
    requires Lists(w, order) && forall c :: Returning(w, c) == if c == q.c then {q.t} else {}
    ensures order == [q]
  {
    assert q in order;
    var last := |order| - 1;
    assert order[last] in order && order[0] in order;
    assert order[last] == order[0];
  }

  lemma OneReturns(w: World, order: seq<Quad>, t: Triple, c: Node, known: set<Triple>)
    requires Lists(w, order) && c in w.views && w.pending == Awaiting(map[], c, {t} * known)
    ensures order == if t in known then [Quad(t, c)] else []
    ensures forall d :: Returning(w, d) == if d == c && t in known then {t} else {}
  {
    if t in known {
      assert {t} * known == {t};
      assert forall d :: Returning(w, d) == if d == c then {t} else {};
      OnlyListed(w, order, Quad(t, c));
    } else {
      assert {t} * known == {};
      assert forall d :: Returning(w, d) == {};
      hide Lists;
      if order != [] {
        FirstListed(w, order);
      }
    }
  }

  lemma KeptQuad(w: World, order: seq<Quad>, i: nat)
    requires Kept(w) && Lists(w, order) && i < |order|
    ensures order[i].c in w.views && order[i].t in w.views[order[i].c].known
  {
    assert order[i] in order;
  }

  lemma WithoutGone(w: World, w': World, t: Triple, c: Node)
    requires w'.graphs == Without(w.graphs, t, c)
    ensures forall d :: w'.Graph(d) == w.Graph(d) - if d == c then {t} else {}
  {
  }

  lemma NothingReturns(w: World, order: seq<Quad>)
    requires Lists(w, order) && w.pending == map[]
    ensures order == []
  {
    hide Lists;
    if order != [] {
      FirstListed(w, order);
    }
  }

  // What the event of an outermost removal leaves behind.
  ghost predicate RemovalEvent(prog: Program, w: World, warm: World, w1: World, t: Triple, c: Node) {
    if t in w.Graph(c) then Readied(w, warm, c) && Cascaded(prog, warm, w1, t, c) else w1 == w
  }

  lemma KeptPending(prog: Program, w: World, warm: World, w1: World, w2: World, t: Triple, c: Node)
    requires w.pending == map[] && RemovalEvent(prog, w, warm, w1, t, c)
    requires w2.views == w1.views && w2.pending == w1.pending
    ensures Kept(w2)
  {
    hide Ensured, EngineRetracted;
  }

  lemma RemoveEnds(prog: Program, w: World, w0: World, warm: World, w1: World, w2: World, w3: World, t: Triple,
      c: Node, order: seq<Quad>)
    requires w.pending == map[] && w0 == w.(removeDepth := w0.removeDepth)
    requires RemovalEvent(prog, w0, warm, w1, t, c) && RemovalsOnly(w0, w1)
    requires w2 == w1.(graphs := w2.graphs, removeDepth := w.removeDepth)
    requires forall d :: w2.Graph(d) == w1.Graph(d) - if d == c then {t} else {}
    requires Flushed(w2, w3, order) && Lists(w2, order)
    ensures w.Idle() && w1.removals == map[] ==> w3.Idle()
    ensures w3.removalBatches == w1.removalBatches
    ensures t in w.Graph(c) ==> Readied(w, warm, c) && Removed(prog, warm, w3, t, c)
    ensures t !in w.Graph(c) ==> SameContent(w, w3) && w3.warnings == w.warnings
    ensures Sound(w, []) ==> Sound(w3, [])
  {
    hide Sound, Ensured, Cascaded;
    if t in w.Graph(c) {
      ReadiedAlike(w, w0, warm, c);
      assert t in warm.Graph(c) by { EnsuredKeeps(w, warm, c); }
      CascadedRemoved(prog, warm, w1, w2, w3, t, c, order);
      if Sound(w, []) {
        EnsuredSound(w, warm, c);
        assert w1.views[c].stated <= w1.views[c].known by { CascadedInside(prog, warm, w1, t, c); }
        RemovedSound(prog, warm, w3, t, c);
      }
    } else {
      FlushEnds(w2, w3, order);
      NothingReturns(w2, order);
      assert w3.warnings == w.warnings;
      assert SameContent(w, w3);
      if Sound(w, []) {
        SameSound(w, w3);
      }
    }
  }

  lemma NestedEnds(w: World, w0: World, w1: World, w2: World, w3: World, t: Triple, c: Node)
    requires w0 == w.(removeDepth := w.removeDepth + 1)
    requires w1 == if t in w0.Graph(c) then w0.(removals := Enqueued(w0.removals, t, c)) else w0
    requires w2 == w1.(graphs := w2.graphs) && forall d :: w2.Graph(d) == w1.Graph(d) - if d == c then {t} else {}
    requires w3 == w2.(removeDepth := w.removeDepth)
    ensures NestedRemoval(w, w3, t, c)
    ensures t !in w.Graph(c) ==> SameContent(w, w3) && w3.warnings == w.warnings
  {
    hide Enqueued;
    forall d ensures w3.Graph(d) == w.Graph(d) - if d == c then {t} else {} {
      assert w3.Graph(d) == w2.Graph(d) && w1.Graph(d) == w.Graph(d);
    }
  }

  lemma EnsuredKeeps(w: World, warm: World, c: Node)
    requires Ensured(w, warm, c)
    ensures w.Graph(c) <= warm.Graph(c)
  {
  }

  lemma SameSound(w: World, w': World)
    requires SameContent(w, w') && Sound(w, [])
    ensures Sound(w', [])
  {
    hide TriplesIn, Agrees;
  }
}
