// The store wrapper and its batch dispatcher: re-entrant events around a
// backing store, with one engine per context.
module Stores {
  import opened Rdf
  import opened Rules
  import opened Support
  import opened TruthMaintenance
  import opened Engine
  import opened Worlds

  class BatchDispatcher {
    var currentAdditions: map<Node, set<Triple>>
    var currentRemovals: map<Node, set<Triple>>
    var handlingAddition: bool
    var handlingRemoval: bool
    // How many batches have been dispatched.
    ghost var additionBatches: nat
    ghost var removalBatches: nat

    constructor ()
      ensures currentAdditions == currentRemovals == map[] && !handlingAddition && !handlingRemoval
      ensures additionBatches == removalBatches == 0
    {
      currentAdditions, currentRemovals := map[], map[];
      handlingAddition, handlingRemoval := false, false;
      additionBatches, removalBatches := 0, 0;
    }
  }

  ghost function ViewOf(e: RETEEngine): EngineView
    reads e.Repr()
  {
    EngineView(e.known, e.materialized, e.Stated(), e.lingering)
  }

  ghost function ObjectsOf(engines: map<Node, RETEEngine>): set<object> {
    set c, o | c in engines && o in engines[c].Repr() :: o
  }

  ghost predicate AllValid(engines: map<Node, RETEEngine>, prog: Program)
    reads ObjectsOf(engines)
  {
    && (forall c, d :: c in engines && d in engines && c != d ==> engines[c].Repr() !! engines[d].Repr())
    && forall c :: c in engines ==> engines[c].Warmed() && engines[c].prog == prog
  }

  ghost function Views(engines: map<Node, RETEEngine>): map<Node, EngineView>
    reads ObjectsOf(engines)
  {
    map c | c in engines :: ViewOf(engines[c])
  }

  lemma ObjectsInstalled(engines: map<Node, RETEEngine>, c: Node, e: RETEEngine)
    requires c !in engines
    ensures ObjectsOf(engines[c := e]) == ObjectsOf(engines) + e.Repr()
  {
    var more := engines[c := e];
    forall o | o in ObjectsOf(engines) ensures o in ObjectsOf(more) {
      var d :| d in engines && o in engines[d].Repr();
      assert d in more && more[d] == engines[d];
    }
    assert more[c] == e;
  }

  lemma ViewsKeys(engines: map<Node, RETEEngine>)
    ensures Views(engines).Keys == engines.Keys
  {
    hide ViewOf;
  }

  lemma ViewsInstalled(engines: map<Node, RETEEngine>, c: Node, e: RETEEngine)
    ensures Views(engines).Keys == engines.Keys
    ensures Views(engines[c := e]) == Views(engines)[c := ViewOf(e)]
  {
    hide ViewOf;
  }

  lemma AllValidInstalled(engines: map<Node, RETEEngine>, prog: Program, c: Node, e: RETEEngine)
    requires c !in engines && AllValid(engines, prog) && e.Repr() !! ObjectsOf(engines)
    requires e.Warmed() && e.prog == prog
    ensures AllValid(engines[c := e], prog)
  {
    hide RETEEngine.Warmed;
    forall d | d in engines ensures engines[d].Repr() !! e.Repr() {
      forall o | o in engines[d].Repr() ensures o in ObjectsOf(engines) {}
    }
  }

  method AddTo(e: RETEEngine, triples: set<Triple>) returns (shown: set<Triple>)
    requires e.Warmed()
    modifies e.Repr()
    ensures e.Warmed()
    ensures EngineAdded(old(ViewOf(e)), ViewOf(e), triples, shown)
  {
    hide Manifest, NewlyMatched;
    shown := e.AddTriples(triples);
  }

  method RetractFrom(e: RETEEngine, triples: set<Triple>) returns (cascade: set<Triple>)
    requires e.Warmed()
    modifies e.Repr()
    ensures e.Warmed()
    ensures EngineRetracted(e.prog, old(ViewOf(e)), ViewOf(e), triples, cascade)
  {
    hide Derivable, Retracts, Recorded, NewlyMatched;
    ghost var J, v := e.tms.Justified(), ViewOf(e);
    EngineFacts(e);
    cascade := e.RetractTriples(triples);
    RetractionSeen(e.prog, J, v, triples, cascade);
  }

  // What a retraction removes, told from the outside.
  lemma RetractionSeen(prog: Program, J: set<Justification>, v: EngineView, triples: set<Triple>, cascade: set<Triple>)
    requires Recorded(J, prog, true, v.known) && Retracts(J, v.known, v.stated, triples, cascade)
    ensures (forall t :: t in triples * v.stated ==> Derivable(prog, true, v.known, t)) ==> cascade == {}
    ensures forall t :: triples == {t} ==> LostAlone(prog, v, t, cascade)
    ensures forall t :: triples == {t} && t in v.stated && !Derivable(prog, true, v.known, t) ==> t in cascade
  {
    forall t ensures Derivable(prog, true, v.known, t) <==> exists j :: j in J && j.consequent == t {
      DerivableIffJustified(J, prog, true, v.known, t);
    }
    hide Recorded, Derivable, Retracts;
    if forall t :: t in triples * v.stated ==> Derivable(prog, true, v.known, t) {
      RetractsSupported(J, v.known, v.stated, triples, cascade);
    }
    forall t | triples == {t}
      ensures LostAlone(prog, v, t, cascade)
      ensures t in v.stated && !Derivable(prog, true, v.known, t) ==> t in cascade
    {
      RetractsOne(J, v.known, v.stated, t, cascade);
    }
  }

  method WarmEngine(prog: Program, existing: set<Triple>) returns (e: RETEEngine, shown: set<Triple>)
    ensures fresh(e.Repr()) && e.Warmed() && e.prog == prog
    ensures EngineWarmed(ViewOf(e), existing, shown)
  {
    hide Manifest, NewlyMatched;
    e := new RETEEngine(prog);
    shown := e.Warmup(existing);
  }

  class RETEStore {
    const prog: Program
    const dispatcher: BatchDispatcher
    // The wrapped store: the triples of each context.
    var backing: map<Node, set<Triple>>
    var engines: map<Node, RETEEngine>
    var pendingRematerialize: map<Node, set<Triple>>
    var removeDepth: nat
    // The removals reported as logically ineffective.
    var warnings: seq<Quad>

    ghost function Repr(): set<object>
      reads this
    {
      {this, dispatcher} + ObjectsOf(engines)
    }

    // Engines do not share objects, and each of them is valid and warmed.
    ghost predicate Valid()
      reads Repr()
    {
      && this !in ObjectsOf(engines) && dispatcher !in ObjectsOf(engines)
      && AllValid(engines, prog)
    }

    // Everything observable, as one value.
    ghost function Now(): World
      reads Repr()
    {
      World(backing, Views(engines),
            dispatcher.currentAdditions, dispatcher.handlingAddition, dispatcher.additionBatches,
            dispatcher.currentRemovals, dispatcher.handlingRemoval, dispatcher.removalBatches,
            pendingRematerialize, removeDepth, warnings)
    }

    constructor (prog: Program, backing: map<Node, set<Triple>>)
      ensures Valid() && fresh(Repr()) && this.prog == prog
      ensures Now() == World(backing, map[], map[], false, 0, map[], false, 0, map[], 0, [])
    {
      this.prog := prog;
      dispatcher := new BatchDispatcher();
      this.backing, engines, pendingRematerialize, removeDepth, warnings := backing, map[], map[], 0, [];
    }

    // Single updates

    method SetAdditions(queue: map<Node, set<Triple>>, handling: bool, ghost batches: nat)
      requires Valid()
      modifies Repr()
      ensures Valid() && Repr() == old(Repr())
      ensures Now() == old(Now()).(additions := queue, handlingAddition := handling, additionBatches := batches)
    {
      hide RETEEngine.Warmed;
      dispatcher.currentAdditions := queue;
      dispatcher.handlingAddition := handling;
      dispatcher.additionBatches := batches;
    }

    method SetRemovals(queue: map<Node, set<Triple>>, handling: bool, ghost batches: nat)
      requires Valid()
      modifies Repr()
      ensures Valid() && Repr() == old(Repr())
      ensures Now() == old(Now()).(removals := queue, handlingRemoval := handling, removalBatches := batches)
    {
      hide RETEEngine.Warmed;
      dispatcher.currentRemovals := queue;
      dispatcher.handlingRemoval := handling;
      dispatcher.removalBatches := batches;
    }

    method SetBacking(graphs: map<Node, set<Triple>>)
      requires Valid()
      modifies Repr()
      ensures Valid() && Repr() == old(Repr())
      ensures Now() == old(Now()).(graphs := graphs)
    {
      hide RETEEngine.Warmed;
      backing := graphs;
    }

    method SetPending(pending: map<Node, set<Triple>>, depth: nat)
      requires Valid()
      modifies Repr()
      ensures Valid() && Repr() == old(Repr())
      ensures Now() == old(Now()).(pending := pending, removeDepth := depth)
    {
      hide RETEEngine.Warmed;
      pendingRematerialize := pending;
      removeDepth := depth;
    }

    method Warn(t: Triple, c: Node)
      requires Valid()
      modifies Repr()
      ensures Valid() && Repr() == old(Repr())
      ensures Now() == old(Now()).(warnings := old(warnings) + [Quad(t, c)])
    {
      hide RETEEngine.Warmed;
      warnings := warnings + [Quad(t, c)];
    }

    method EngineAdd(c: Node, triples: set<Triple>) returns (shown: set<Triple>)
      requires Valid() && c in Now().views
      modifies Repr()
      ensures Valid() && Repr() == old(Repr())
      ensures OnlyView(old(Now()), Now(), c)
      ensures EngineAdded(old(Now()).views[c], Now().views[c], triples, shown)
    {
      hide RETEEngine.Warmed, EngineAdded;
      shown := AddTo(engines[c], triples);
    }

    method EngineRetract(c: Node, triples: set<Triple>) returns (cascade: set<Triple>)
      requires Valid() && c in Now().views
      modifies Repr()
      ensures Valid() && Repr() == old(Repr())
      ensures OnlyView(old(Now()), Now(), c)
      ensures EngineRetracted(prog, old(Now()).views[c], Now().views[c], triples, cascade)
    {
      hide RETEEngine.Warmed, EngineRetracted;
      cascade := RetractFrom(engines[c], triples);
    }

    method HasFact(c: Node, t: Triple) returns (found: bool)
      requires Valid() && c in Now().views
      ensures found <==> t in Now().views[c].known
    {
      found := engines[c].tms.memory.HasFact(t);
    }

    // The triples as quads of one context, in some order.
    method QuadsOf(triples: set<Triple>, c: Node) returns (quads: seq<Quad>)
      requires Valid()
      ensures Valid() && Repr() == old(Repr()) && Now() == old(Now())
      ensures forall q :: q in quads <==> q.c == c && q.t in triples
      ensures |quads| == |triples|
    {
      hide RETEEngine.Warmed, AllValid;
      quads := [];
      var rest := triples;
      while rest != {}
        invariant rest <= triples && |quads| + |rest| == |triples|
        invariant forall q :: q in quads <==> q.c == c && q.t in triples - rest
      {
        var t :| t in rest;
        quads := quads + [Quad(t, c)];
        rest := rest - {t};
      }
    }

    // A new engine, warmed with what the backing store already holds.
    method NewEngine(c: Node) returns (shown: set<Triple>)
      requires Valid() && c !in Now().views
      modifies Repr()
      ensures Valid() && forall o :: o in Repr() ==> o in old(Repr()) || fresh(o)
      ensures AddedView(old(Now()), Now(), c)
      ensures EngineWarmed(Now().views[c], old(Now()).Graph(c), shown)
    {
      hide AllValid, Views, RETEEngine.Warmed, EngineWarmed;
      ViewsKeys(engines);
      var engine, deductions := WarmEngine(prog, Lookup(backing, c));
      assert Valid() && Now() == old(Now()) && engine.Repr() !! Repr();
      Install(c, engine);
      shown := deductions;
    }

    method Install(c: Node, engine: RETEEngine)
      requires Valid() && c !in engines
      requires engine.Warmed() && engine.prog == prog && engine.Repr() !! Repr()
      modifies this`engines
      ensures Valid() && Repr() == old(Repr()) + engine.Repr()
      ensures AddedView(old(Now()), Now(), c) && Now().views[c] == ViewOf(engine)
    {
      hide AllValid, Views, ViewOf, ObjectsOf, RETEEngine.Warmed;
      ObjectsInstalled(engines, c, engine);
      ViewsInstalled(engines, c, engine);
      AllValidInstalled(engines, prog, c, engine);
      engines := engines[c := engine];
    }

    // Additions

    // An event emitted before a triple is added: a triple the graph already
    // holds is dropped, any other is queued, and the outermost event drains
    // the queue.
    method OnTripleAdded(t: Triple, c: Node)
      requires Valid()
      requires !Now().handlingAddition ==> Now().additions == map[]
      modifies Repr()
      ensures Valid() && forall o :: o in Repr() ==> o in old(Repr()) || fresh(o)
      ensures AdditionsOnly(old(Now()), Now())
      ensures t in old(Now()).Graph(c) ==> Now() == old(Now())
      ensures t !in old(Now()).Graph(c) && old(Now()).handlingAddition ==>
        Now() == old(Now()).(additions := Enqueued(old(Now()).additions, t, c))
      ensures t !in old(Now()).Graph(c) && !old(Now()).handlingAddition ==>
        && Grown(old(Now()), Now(), c, {t}) && Now().additions == map[]
        && old(Now()).additionBatches < Now().additionBatches <= old(Now()).additionBatches + 2
      decreases if Now().handlingAddition then 0 else 1, 1
    {
      hide Repr, Valid, Views;
      if t in Lookup(backing, c) {
        return;
      }
      SetAdditions(Enqueued(dispatcher.currentAdditions, t, c), dispatcher.handlingAddition,
        dispatcher.additionBatches);
      if !dispatcher.handlingAddition {
        assert Lookup(old(Now()).additions, c) + {t} == {t};
        assert Now().additions == map[c := {t}];
        DrainAdditions(t, c);
      }
    }

    // Dispatch batch after batch until nothing is queued. The first batch is
    // the triple whose event came first; what its handling adds makes up at
    // most one more batch, which the engine answers with the empty set.
    method DrainAdditions(ghost t: Triple, ghost c: Node)
      requires Valid()
      requires !Now().handlingAddition && Now().additions == map[c := {t}]
      modifies Repr()
      ensures Valid() && forall o :: o in Repr() ==> o in old(Repr()) || fresh(o)
      ensures AdditionsOnly(old(Now()), Now())
      ensures Grown(old(Now()), Now(), c, {t}) && Now().additions == map[]
      ensures old(Now()).additionBatches < Now().additionBatches <= old(Now()).additionBatches + 2
      decreases 1, 0
    {
      hide Repr, Valid, Views, Grown, Draining;
      ghost var w, round := Now(), 0;
      SetAdditions(dispatcher.currentAdditions, true, dispatcher.additionBatches);
      DrainStarts(w, Now(), t, c);
      while dispatcher.currentAdditions != map[]
        invariant Valid() && forall o :: o in Repr() ==> o in old(Repr()) || fresh(o)
        invariant Draining(w, Now(), t, c, round) && round <= 2
        decreases 2 - round
      {
        DrainMore(w, Now(), t, c, round);
        DispatchAddition(w, t, c, round);
        round := round + 1;
      }
      DrainEnds(w, Now(), t, c, round);
      SetAdditions(map[], false, dispatcher.additionBatches);
    }

    // Pop one batch and hand it to the engine.
    method DispatchAddition(ghost w: World, ghost t: Triple, ghost c: Node, ghost round: nat)
      requires Valid()
      requires Draining(w, Now(), t, c, round) && Now().handlingAddition && Now().additions != map[]
      modifies Repr()
      ensures Valid() && forall o :: o in Repr() ==> o in old(Repr()) || fresh(o)
      ensures Draining(w, Now(), t, c, round + 1)
      decreases 0, 5
    {
      hide Repr, Valid, Views, Draining, Grown;
      DrainMore(w, Now(), t, c, round);
      var context :| context in dispatcher.currentAdditions;
      var batch := dispatcher.currentAdditions[context];
      SetAdditions(dispatcher.currentAdditions - {context}, true, dispatcher.additionBatches + 1);
      label Popped:
      if batch != {} {
        OnTriplesAdded(context, batch);
      }
      DrainStep(w, old(Now()), old@Popped(Now()), Now(), t, c, round, batch);
    }

    // Saturate the engine with the batch and put what became visible into the
    // graph; the events of that are queued.
    method OnTriplesAdded(c: Node, batch: set<Triple>)
      requires Valid()
      requires Now().handlingAddition && Now().additions == map[]
      modifies Repr()
      ensures Valid() && forall o :: o in Repr() ==> o in old(Repr()) || fresh(o)
      ensures AdditionsOnly(old(Now()), Now()) && Now().additionBatches == old(Now()).additionBatches
      ensures Grown(old(Now()), Now(), c, batch) && Follows(Now(), c)
      ensures c in old(Now()).views && Admitted(batch, old(Now()).views[c].known) == {} ==> Now().additions == map[]
      decreases 0, 4
    {
      hide Repr, Valid, Views, Ensured, EngineAdded, GraphsPlus, QueuedUp, Follows, Grown, Settled, Sound, Expanded;
      EnsureEngine(c);
      label Ready:
      var shown := EngineAdd(c, batch);
      label Added:
      var produced := QuadsOf(shown - Lookup(backing, c), c);
      AddN(produced);
      ProducedFollows(old@Ready(Now()), old@Added(Now()), Now(), c, batch, shown, produced);
      ProducedGrown(old(Now()), old@Ready(Now()), old@Added(Now()), Now(), c, batch, shown, produced);
    }

    // Create and warm the engine of a context that has none. What it deduces
    // from the graph triggers no inference.
    method EnsureEngine(c: Node)
      requires Valid()
      requires Now().additions == map[]
      modifies Repr()
      ensures Valid() && forall o :: o in Repr() ==> o in old(Repr()) || fresh(o)
      ensures AdditionsOnly(old(Now()), Now())
      ensures c in old(Now()).views ==> Now() == old(Now())
      ensures Ensured(old(Now()), Now(), c) && c in Now().views
      ensures if old(Now()).handlingAddition then
          Follows(Now(), c) && Now().additionBatches == old(Now()).additionBatches
        else
          Now().additions == map[] && Now().additionBatches >= old(Now()).additionBatches
      decreases if Now().handlingAddition then 0 else 1, 3
    {
      hide Repr, Valid, Views, Ensured, EngineWarmed, GraphsPlus, QueuedUp, Follows, Settled, Sound, Expanded;
      ViewsKeys(engines);
      AlreadyEnsured(Now(), c);
      if c !in engines {
        var shown := NewEngine(c);
        label Warmed:
        var deduced := QuadsOf(shown, c);
        AddN(deduced);
        WarmedEnsured(old(Now()), old@Warmed(Now()), Now(), c, shown, deduced);
      }
    }

    // One event per quad, and then the quads reach their graphs.
    method AddN(quads: seq<Quad>)
      requires Valid()
      requires !Now().handlingAddition ==> Now().additions == map[]
      modifies Repr()
      ensures Valid() && forall o :: o in Repr() ==> o in old(Repr()) || fresh(o)
      ensures AdditionsOnly(old(Now()), Now())
      ensures old(Now()).handlingAddition ==>
        && Now().views == old(Now()).views && Now().additionBatches == old(Now()).additionBatches
        && GraphsPlus(old(Now()), Now(), quads) && QueuedUp(old(Now()), Now(), quads)
      ensures !old(Now()).handlingAddition ==>
        Now().additions == map[] && Now().additionBatches >= old(Now()).additionBatches
      ensures !old(Now()).handlingAddition && (forall q :: q in quads ==> Settled(old(Now()), q)) ==>
        Now().views == old(Now()).views && GraphsPlus(old(Now()), Now(), quads)
      ensures !old(Now()).handlingAddition && Sound(old(Now()), []) ==>
        Sound(Now(), []) && Expanded(old(Now()), Now(), quads)
      decreases if Now().handlingAddition then 0 else 1, 2
    {
      hide Repr, Valid, Views, Grown, Sound, Expanded, QueuedUp, Settled, Enqueued, GraphsPlus, Progress, WithQuads;
      ghost var w := Now();
      ProgressStarts(w, quads);
      for i := 0 to |quads|
        invariant Valid() && forall o :: o in Repr() ==> o in old(Repr()) || fresh(o)
        invariant AdditionsOnly(w, Now()) && Progress(w, Now(), quads, quads[..i])
        invariant !w.handlingAddition ==> Now().additions == map[] && Now().additionBatches >= w.additionBatches
      {
        label Step:
        assert quads[..i + 1] == quads[..i] + [quads[i]];
        OnTripleAdded(quads[i].t, quads[i].c);
        ProgressStep(w, old@Step(Now()), Now(), quads, quads[..i], quads[i]);
      }
      assert quads[..|quads|] == quads;
      label Sent:
      SetBacking(WithQuads(backing, quads));
      WithQuadsPlus(old@Sent(Now()), Now(), quads);
      ProgressEnds(w, old@Sent(Now()), Now(), quads);
    }

    // One event, and then the triple reaches its graph.
    method Add(t: Triple, c: Node)
      requires Valid()
      requires !Now().handlingAddition && Now().additions == map[]
      modifies Repr()
      ensures Valid() && forall o :: o in Repr() ==> o in old(Repr()) || fresh(o)
      ensures AdditionsOnly(old(Now()), Now()) && Now().additions == map[]
      ensures t in old(Now()).Graph(c) ==>
        && Now().views == old(Now()).views && Now().additionBatches == old(Now()).additionBatches
        && forall d :: Now().Graph(d) == old(Now()).Graph(d)
      ensures t !in old(Now()).Graph(c) ==>
        && Grown(old(Now()), Now(), c, {t}) && t in Now().Graph(c)
        && Now().additionBatches <= old(Now()).additionBatches + 2
      ensures Sound(old(Now()), []) ==> Sound(Now(), [])
    {
      hide Repr, Valid, Views, Grown, Sound, GraphsPlus, WithQuads;
      OnTripleAdded(t, c);
      label Sent:
      SetBacking(WithQuads(backing, [Quad(t, c)]));
      WithQuadsPlus(old@Sent(Now()), Now(), [Quad(t, c)]);
      if t in old(Now()).Graph(c) {
        PresentPlus(old(Now()), Now(), t, c);
      } else {
        AddedOne(old(Now()), old@Sent(Now()), Now(), t, c);
      }
    }

    // Opening the store warms an engine for every context it already has.
    method Open()
      requires Valid() && Now().Idle()
      modifies Repr()
      ensures Valid() && forall o :: o in Repr() ==> o in old(Repr()) || fresh(o)
      ensures Now().Idle() && old(Now()).graphs.Keys <= Now().views.Keys
      ensures Sound(old(Now()), []) ==> Sound(Now(), [])
    {
      hide Repr, Valid, Views, Ensured, Sound, Follows;
      var contexts := backing.Keys;
      while contexts != {}
        invariant Valid() && forall o :: o in Repr() ==> o in old(Repr()) || fresh(o)
        invariant Now().Idle() && old(Now()).graphs.Keys - contexts <= Now().views.Keys
        invariant Sound(old(Now()), []) ==> Sound(Now(), [])
      {
        label Next:
        var c :| c in contexts;
        EnsureEngine(c);
        contexts := contexts - {c};
        if Sound(old@Next(Now()), []) {
          EnsuredSound(old@Next(Now()), Now(), c);
        }
        EnsuredViews(old@Next(Now()), Now(), c);
      }
    }

    // Removals

    // An event emitted before a triple is removed: an absent triple is dropped,
    // any other is queued, and the outermost event drains the queue.
    method OnTripleRemoved(t: Triple, c: Node) returns (ghost warm: World)
      requires Valid()
      requires !Now().handlingAddition && Now().additions == map[] && Now().removeDepth > 0
      requires !Now().handlingRemoval ==> Now().removals == map[]
      modifies Repr()
      ensures Valid() && forall o :: o in Repr() ==> o in old(Repr()) || fresh(o)
      ensures RemovalsOnly(old(Now()), Now())
      ensures t !in old(Now()).Graph(c) ==> Now() == old(Now())
      ensures t in old(Now()).Graph(c) && old(Now()).handlingRemoval ==>
        Now() == old(Now()).(removals := Enqueued(old(Now()).removals, t, c))
      ensures t in old(Now()).Graph(c) && !old(Now()).handlingRemoval ==>
        && Readied(old(Now()), warm, c)
        && Cascaded(prog, warm, Now(), t, c) && Now().removals == map[]
        && old(Now()).removalBatches < Now().removalBatches <= old(Now()).removalBatches + 2
      decreases if Now().handlingRemoval then 0 else 1, 2
    {
      hide Repr, Valid, Views, Ensured, Readied, Cascaded;
      warm := Now();
      if t !in Lookup(backing, c) {
        return;
      }
      SetRemovals(Enqueued(dispatcher.currentRemovals, t, c), dispatcher.handlingRemoval, dispatcher.removalBatches);
      if !dispatcher.handlingRemoval {
        assert Lookup(old(Now()).removals, c) + {t} == {t};
        assert Now().removals == map[c := {t}];
        label Queued:
        warm := DrainRemovals(t, c);
        ReadiedAlike(old(Now()), old@Queued(Now()), warm, c);
      }
    }

    // Dispatch batch after batch: the triple, and at most one more with what
    // its cascade removed, which the engine answers with the empty set.
    method DrainRemovals(ghost t: Triple, ghost c: Node) returns (ghost warm: World)
      requires Valid()
      requires !Now().handlingAddition && Now().additions == map[] && Now().removeDepth > 0
      requires !Now().handlingRemoval && Now().removals == map[c := {t}]
      modifies Repr()
      ensures Valid() && forall o :: o in Repr() ==> o in old(Repr()) || fresh(o)
      ensures RemovalsOnly(old(Now()), Now()) && Now().removals == map[]
      ensures Readied(old(Now()), warm, c)
      ensures Cascaded(prog, warm, Now(), t, c)
      ensures old(Now()).removalBatches < Now().removalBatches <= old(Now()).removalBatches + 2
      decreases 1, 1
    {
      hide Repr, Valid, Views, Ensured, Readied, Cascaded, Shrinking;
      ghost var w, round := Now(), 0;
      warm := w;
      SetRemovals(dispatcher.currentRemovals, true, dispatcher.removalBatches);
      ShrinkStarts(prog, w, Now(), t, c);
      while dispatcher.currentRemovals != map[]
        invariant Valid() && forall o :: o in Repr() ==> o in old(Repr()) || fresh(o)
        invariant Shrinking(prog, w, warm, Now(), t, c, round) && round <= 2 && (round == 0 ==> warm == w)
        decreases 2 - round
      {
        ShrinkMore(prog, w, warm, Now(), t, c, round);
        warm := DispatchRemoval(w, warm, t, c, round);
        round := round + 1;
      }
      ShrinkEnds(prog, w, warm, Now(), t, c, round);
      SetRemovals(map[], false, dispatcher.removalBatches);
    }

    // Pop one batch and hand it to the engine.
    method DispatchRemoval(ghost w: World, ghost warm: World, ghost t: Triple, ghost c: Node, ghost round: nat)
      returns (ghost warm': World)
      requires Valid()
      requires !w.handlingAddition && w.additions == map[] && w.removeDepth > 0
      requires Shrinking(prog, w, warm, Now(), t, c, round) && Now().removals != map[]
      requires round == 0 ==> warm == w
      modifies Repr()
      ensures Valid() && forall o :: o in Repr() ==> o in old(Repr()) || fresh(o)
      ensures Shrinking(prog, w, warm', Now(), t, c, round + 1)
      decreases 0, 5
    {
      hide Repr, Valid, Views, Shrinking, Ensured, Readied, BatchRetracted;
      ShrinkMore(prog, w, warm, Now(), t, c, round);
      var context :| context in dispatcher.currentRemovals;
      var batch := dispatcher.currentRemovals[context];
      SetRemovals(dispatcher.currentRemovals - {context}, true, dispatcher.removalBatches + 1);
      label Popped:
      warm' := Now();
      if batch != {} {
        warm' := OnTriplesRemoved(context, batch);
      }
      ShrinkStep(prog, w, warm, old(Now()), old@Popped(Now()), warm', Now(), t, c, round, batch);
      if round > 0 {
        warm' := warm;
      }
    }

    // Which of the batch the engine still holds.
    method KeptOf(c: Node, batch: set<Triple>) returns (kept: set<Triple>)
      requires Valid() && c in Now().views
      ensures Valid() && Repr() == old(Repr()) && Now() == old(Now())
      ensures kept == batch * Now().views[c].known
    {
      hide RETEEngine.Warmed, AllValid, Views;
      kept := {};
      var rest := batch;
      while rest != {}
        invariant rest <= batch && kept == (batch - rest) * Now().views[c].known
      {
        var t :| t in rest;
        var found := HasFact(c, t);
        if found {
          kept := kept + {t};
        }
        rest := rest - {t};
      }
    }

    // The pending quads of contexts with an engine, in some order.
    method Pending() returns (order: seq<Quad>)
      requires Valid()
      ensures Valid() && Repr() == old(Repr()) && Now() == old(Now())
      ensures Lists(Now(), order)
    {
      hide RETEEngine.Warmed, AllValid, Views;
      ViewsKeys(engines);
      order := [];
      var contexts := pendingRematerialize.Keys;
      while contexts != {}
        invariant contexts <= pendingRematerialize.Keys
        invariant forall q :: q in order <==> q.c !in contexts && q.t in Returning(Now(), q.c)
        invariant forall i, k :: 0 <= i < |order| && 0 <= k < |order| && order[i] == order[k] ==> i == k
      {
        var c :| c in contexts;
        contexts := contexts - {c};
        if c in engines {
          var rest := pendingRematerialize[c];
          while rest != {}
            invariant rest <= pendingRematerialize[c]
            invariant forall q :: q in order <==> q.c !in contexts && q.t in Returning(Now(), q.c) && !(q.c == c && q.t in rest)
            invariant forall i, k :: 0 <= i < |order| && 0 <= k < |order| && order[i] == order[k] ==> i == k
          {
            var t :| t in rest;
            order := order + [Quad(t, c)];
            rest := rest - {t};
          }
        }
      }
    }

    // Warn about, and re-add, what the engines kept.
    method FlushRematerialize() returns (ghost order: seq<Quad>)
      requires Valid()
      requires !Now().handlingAddition && Now().additions == map[] && Kept(Now())
      modifies Repr()
      ensures Valid() && forall o :: o in Repr() ==> o in old(Repr()) || fresh(o)
      ensures Lists(old(Now()), order) && Flushed(old(Now()), Now(), order)
    {
      hide Repr, Valid, Views, Grown, Flushed, Lists, Kept, Sound;
      var quads := Pending();
      order := quads;
      SetPending(map[], removeDepth);
      FlushStarts(old(Now()), Now());
      for i := 0 to |quads|
        invariant Valid() && forall o :: o in Repr() ==> o in old(Repr()) || fresh(o)
        invariant Flushed(old(Now()), Now(), quads[..i])
        invariant !Now().handlingAddition && Now().additions == map[]
      {
        label Next:
        assert quads[..i + 1] == quads[..i] + [quads[i]];
        KeptQuad(old(Now()), quads, i);
        Warn(quads[i].t, quads[i].c);
        label Warned:
        Add(quads[i].t, quads[i].c);
        FlushStep(old(Now()), old@Next(Now()), old@Warned(Now()), Now(), quads[..i], quads[i]);
      }
      assert quads[..|quads|] == quads;
    }

    // Retract the batch from the engine, remove the rest of the cascade from
    // the graph, and note which of the batch the engine still holds.
    method OnTriplesRemoved(c: Node, batch: set<Triple>) returns (ghost warm: World)
      requires Valid()
      requires Now().handlingRemoval && Now().removals == map[] && Now().removeDepth > 0
      requires !Now().handlingAddition && Now().additions == map[]
      modifies Repr()
      ensures Valid() && forall o :: o in Repr() ==> o in old(Repr()) || fresh(o)
      ensures RemovalsOnly(old(Now()), Now()) && Now().removalBatches == old(Now()).removalBatches
      ensures Readied(old(Now()), warm, c)
      ensures BatchRetracted(prog, warm, Now(), c, batch)
      decreases 0, 4
    {
      hide Repr, Valid, Views, Ensured, EngineRetracted, Cascading, NestedRemoval;
      EnsureEngine(c);
      label Ready:
      warm := Now();
      var cascade := EngineRetract(c, batch);
      label Retracted:
      var doomed := cascade - batch;
      CascadeStarts(Now(), c);
      ghost var gone := {};
      while doomed != {}
        invariant Valid() && forall o :: o in Repr() ==> o in old(Repr()) || fresh(o)
        invariant gone !! doomed && gone + doomed == cascade - batch
        invariant Cascading(old@Retracted(Now()), Now(), c, gone)
        invariant Now() == old@Retracted(Now()).(graphs := Now().graphs, removals := Now().removals)
      {
        label Next:
        var t :| t in doomed;
        var _ := Remove(t, c);
        CascadeStep(old@Retracted(Now()), old@Next(Now()), Now(), c, gone, t);
        doomed := doomed - {t};
        gone := gone + {t};
      }
      label Cleared:
      var kept := KeptOf(c, batch);
      SetPending(Awaiting(pendingRematerialize, c, kept), removeDepth);
      BatchEnds(prog, warm, old@Retracted(Now()), old@Cleared(Now()), Now(), c, batch, cascade);
    }

    // Remove one triple: its event first, then the graph, and in the outermost
    // frame whatever the engine kept goes back.
    method Remove(t: Triple, c: Node) returns (ghost warm: World)
      requires Valid()
      requires !Now().handlingAddition && Now().additions == map[]
      requires if Now().handlingRemoval then Now().removeDepth > 0 else Now().Idle()
      modifies Repr()
      ensures Valid() && forall o :: o in Repr() ==> o in old(Repr()) || fresh(o)
      ensures old(Now()).handlingRemoval ==> NestedRemoval(old(Now()), Now(), t, c)
      ensures !old(Now()).handlingRemoval ==> Now().Idle()
      ensures t !in old(Now()).Graph(c) ==> SameContent(old(Now()), Now()) && Now().warnings == old(Now()).warnings
      ensures !old(Now()).handlingRemoval && t in old(Now()).Graph(c) ==>
        && Readied(old(Now()), warm, c) && Removed(prog, warm, Now(), t, c)
        && Now().removalBatches <= old(Now()).removalBatches + 2
      ensures !old(Now()).handlingRemoval && Sound(old(Now()), []) ==> Sound(Now(), [])
      decreases if Now().handlingRemoval then 0 else 1, 3
    {
      hide Repr, Valid, Views, Readied, NestedRemoval, Enqueued, Cascaded, Removed, Flushed, Lists, Kept, Sound;
      hide Without;
      warm := Now();
      ghost var order := [];
      SetPending(pendingRematerialize, removeDepth + 1);
      label Entered:
      if t in Lookup(backing, c) {
        warm := OnTripleRemoved(t, c);
      }
      label Sent:
      SetBacking(Without(backing, t, c));
      WithoutGone(old@Sent(Now()), Now(), t, c);
      label Gone:
      SetPending(pendingRematerialize, removeDepth - 1);
      if removeDepth == 0 {
        label Outermost:
        KeptPending(prog, old@Entered(Now()), warm, old@Sent(Now()), Now(), t, c);
        order := FlushRematerialize();
        RemoveEnds(prog, old(Now()), old@Entered(Now()), warm, old@Sent(Now()), old@Outermost(Now()), Now(), t, c,
          order);
      } else {
        NestedEnds(old(Now()), old@Entered(Now()), old@Sent(Now()), old@Gone(Now()), Now(), t, c);
      }
    }
  }
}
