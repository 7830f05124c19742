# Verified models of rdflib-reasoning

Three parts of the repository are modelled here in Dafny, and their central
promises are proved.

**The incremental reasoner behind a store** (`Rdf`, `Rules`, `Matcher`,
`Support`, `TruthMaintenance`, `Agendas`, `Engine`, `Firing`, `Incremental`,
`RetractionLimits`, `OrdinaryClosure`, `Visibility`, `Worlds`, `Stores`,
`Quiescence`). The join network with its alpha and beta memories, the agenda,
the truth-maintenance controller with its dependency graph, the engine, the
batch dispatcher and the store wrapper are classes whose methods update their
fields in place, as in the source. Rules are body and head patterns with pure
guards. The specification they are proved against is `Least`: the least set that
contains the base facts and is closed under the rules. `Firing` says what closed
means by positions: which fact stands for which condition, which terms a guard
is called with, which triples are asserted. The store is proved through `World`,
a value that holds all that can be observed of it between two statements:
graphs, engines, queues, flags, pending re-additions and warnings. Re-entrant
calls are real calls.

**The parser from RDF graphs to OWL 2 structural elements** (`RdfLists`,
`Ordering`, `Kinds`, `Elements`, `Passes`, `Lifting`, `Claims`, `Conservation`,
`RoundTrip`, `Conformance`, `Choices`, `Acceptance`, `Gates`, `Assertions`,
`Shapes`, `Faults`, `Negations`, `Alone`, `FacetErrors`, `Arrangement`). The
passes are a table, in the order of the source, of ten kinds of rules; each rule
says what it claims for one subject or one statement. The class `Axiomatizer`
runs the table, and `Lift` is its result as a function of the set of triples.
All 74 element classes are there, grouped by shape, with the triples they print
and the checks of their validators.

**Transcript repair, the continuation guard, proof reconstruction and the
hierarchy path** (`Transcript`, `Protocol`, `Guard`, `GuardRuns`, `ProofTree`,
`TransitivePath`).

## What the proofs found

The following statements of the repository's documentation, or natural readings
of the code, do not hold as they stand. Each is stated with a run that shows it
and with the exact condition under which it does hold.

1. *Incremental equals from scratch.* `retract_triple` only clears the stated
   flag of a fact that has any justification, even one that leads back to the
   fact itself. A symmetric rule keeps a retracted fact for ever
   (`RetractionLimits.SymmetricFactIsNotRetracted`), and what one call with two
   inputs removes depends on which of them it visits first (`OrderMatters`, two
   orders from one state). What holds always is that the known facts are the
   closure of the stated facts and of the *lingering* ones, those retracted
   while justified and still known (`Engine.KnownIsLeast`). The engine equals a
   recomputation if and only if the stated facts still entail every lingering
   one (`Incremental.ExactIffLingeringEntailed`). A caller can make sure before
   the call: a triple that is not among its own transitive dependents is
   retracted exactly (`RetractIfIndependent`). At the level of the store the
   defect is invisible, because a triple that lingers also goes back into the
   graph: between calls every engine knows exactly the closure of its graph
   (`Quiescence.Play`).
2. *Everything derivable is materialized.* The matcher reports an activation
   once, and the bootstrap phase shows nothing. The hidden activations of an
   engine are exactly those first matched in that phase, and what a later call
   shows is exactly what the other visible ones conclude
   (`Engine.RETEEngine.RunBootstrapRules`, `AddTriples`). A warmed engine shows
   all visible conclusions if and only if it shows those of the closure of the
   bootstrap rules alone (`Visibility.ShowsAllIff`); freshly warmed it does so
   if and only if no such instance concludes anything (`WarmedAlone`). A run
   with two rules has a visible conclusion that is never materialized, whatever
   is added later (`NeverMaterialized`). In the store every other visible
   conclusion is in the graph between calls (`Quiescence.Play`,
   `AllDisplayedIff`).
3. *The closure is the one of the rules.* A beta join never uses one fact for
   two conditions, and a rule whose body has guards only never fires. With the
   chain rule (?x knows ?y), (?y knows ?z) gives (?x asks ?z) the engine knows
   (ann knows ann) and never concludes (ann asks ann)
   (`OrdinaryClosure.FactUsedTwice`); `GuardOnlyIsMissed` shows the other case.
   A closed set is closed in the ordinary sense if and only if it has what the
   instances that use a fact twice, and the guard-only rules whose guards pass,
   conclude (`ClosedIff`), and then the two closures of a base are the same
   (`LeastIff`, for engines `KnownIsOrdinaryIff`). Over all bases at once, the
   engine entails all that the rules do if and only if each missed instance has
   conclusions that its own premises entail for the engine anyway (`AgreesIff`).
   A caller can test the program: if no two conditions of a rule unify and no
   rule has guards only, no instance is ever missed (`SafeAgrees`). The test asks
   for more than agreement. It is exact for "nothing is missed", in rules without
   guards (`UnsafeMisses`); a transitivity rule fails it, although the engine
   entails all that the rule does (`TransitivityAgrees`).
4. `Seq.from_rdflib` ends if and only if the chain of single-valued `rdf:rest`
   steps does not come back to a node it has passed, and then within as many
   steps as there are subjects of `rdf:rest` (`RdfLists.EndsIff`). On every list
   the walker accepts it ends and reads the same entries (`AcceptedIsRead`).
5. *Partition.* `owl:distinctMembers` comes back as `owl:members` exactly at
   nodes typed `owl:AllDifferent`. A node that uses both is always rejected; a
   `owl:distinctMembers` triple elsewhere is claimed by a property assertion or
   as a facet, and then it comes back unchanged
   (`Conformance.OlderPropertyClaimed`). Lifting what the elements print gives
   the same elements, for every graph that lifts (`RoundTrip.LiftRoundTrip`).
6. A facet whose predicate is a blank node is not reported as a malformed graph:
   the validation error of the facet row escapes. There is such a graph
   (`FacetErrors.InvalidFacetEscapes`). Parsing the facets of a list fails that
   way if and only if, at the first cell that is not in order, the only triple
   of the anchor is unclaimed and its predicate is not an IRI (`EscapeIff`), and
   lifting a graph fails that way if and only if such a list belongs to the first
   datatype restriction that fails and everything before it is in order
   (`LiftEscapesIff`). Where all predicates are IRIs it never happens
   (`InvalidFacetCause`).
7. The verdict "proved" of the proof reconstructor says no more than that some
   record concludes the goal: two records that conclude each other make both
   goals proved (`ProofTree.CyclicRecordsAreProved`). No goal of the tree is cut
   if and only if no goal it leads to, by the records chosen, leads back to
   itself (`GroundedIffAcyclic`), and then the goal follows from facts that no
   record concludes (`ProvedFollows`). Falling depths are one way to get there
   (`LayeredIsAcyclic`).
8. *The circuit breaker.* In finalize-only mode it counts turns that ask for
   tools only, and prose that is not an answer is re-prompted without bound
   (`Guard.ProseIsNeverStopped`). A run stays in the mode if and only if no event
   answers or switches the mode back and at most four turns in all ask for tools
   (`StaysIff`), and then it re-prompts exactly these turns and the turns of
   prose (`RepromptsCounted`): re-prompting is bounded if and only if prose is.
9. *An element is lifted from what it prints.* An expression or list axiom that
   stands alone in a graph comes back if and only if its class is the one that an
   untyped graph calls for (`Alone.AloneIff`): object restrictions with data
   counterparts, n-ary disjoint data properties and negative assertions need more
   than themselves. In any graph, what a pass makes of a node is stated shape by
   shape (`Shapes`), and which assertions it takes by what the other elements
   print (`Assertions.ClaimedIff`).

## Model

| member | source | states |
|---|---|---|
| `Rules.AlphaMatchIsSubstitution` | rdflib-reasoning-engine/src/rdflib_reasoning/engine/rete/network.py:315-340 | matching a fact term by term succeeds with bindings b if and only if b is the one substitution of exactly the variables of the pattern that yields the fact |
| `Rules.ConclusionsStayInUniverse` | rdflib-reasoning-engine/src/rdflib_reasoning/engine/rete_engine.py:161-177 | no rule invents terms: over facts built from a set of terms, conclusions are built from these terms and those of the rule heads |
| `Rules.LeastAbsorbs` | rdflib-reasoning-engine/src/rdflib_reasoning/engine/rete_engine.py:301-332 | the closure of a base with some triples added is the closure of the base if and only if the base entails the triples |
| `Matcher.IncrementalJoin` | rdflib-reasoning-engine/src/rdflib_reasoning/engine/rete/network.py:349-390 | joining new left matches with all right ones, and all left ones with new right ones, adds to a complete beta memory exactly what it lacks, and reports exactly the new matches |
| `Matcher.FireReports` | rdflib-reasoning-engine/src/rdflib_reasoning/engine/rete/network.py:425-450 | the actions of a rule are exactly the activations its root matches and guards admit, once each; a bootstrap rule is reported by every pass |
| `Matcher.Network.UpdateMemories` | rdflib-reasoning-engine/src/rdflib_reasoning/engine/rete/network.py:194-225 | visiting shared alpha and beta nodes in join order leaves every memory with exactly the matches of the facts, and knows which are new |
| `Matcher.Network.MatchTerminals` | rdflib-reasoning-engine/src/rdflib_reasoning/engine/rete/network.py:479-500 | one pass returns exactly the activations over the facts that were not reported before, and all memories are complete afterwards |
| `Matcher.Network.Evict` | rdflib-reasoning-engine/src/rdflib_reasoning/engine/rete/network.py:130-150 | after eviction the memories are complete for the facts that remain |
| `Matcher.EvictedMemory` | rdflib-reasoning-engine/src/rdflib_reasoning/engine/rete/network.py:130-150 | the partial matches that mention no removed fact are exactly the matches over the remaining facts |
| `Support.SweepIsExact` | rdflib-reasoning-engine/src/rdflib_reasoning/engine/rete/tms.py:476-568 | if the facts were exactly those a base supports, a sweep from a seed leaves exactly those the remaining base supports |
| `Support.SweptUnique` | rdflib-reasoning-engine/src/rdflib_reasoning/engine/rete/tms.py:476-568 | what a sweep removes is determined by the justifications, the facts and the seed |
| `Support.IndependentSupport` | rdflib-reasoning-engine/src/rdflib_reasoning/engine/rete/tms.py:411-425 | a justified fact that is not among its own transitive dependents keeps well-founded support without its stated flag |
| `TruthMaintenance.DependencyGraph.AddSupport` | rdflib-reasoning-engine/src/rdflib_reasoning/engine/rete/tms.py:24-32 | both directions gain exactly the new edges and stay mirrored |
| `TruthMaintenance.DependencyGraph.DiscardConsequent` | rdflib-reasoning-engine/src/rdflib_reasoning/engine/rete/tms.py:42-66 | exactly the edges that involve the fact disappear, in both directions |
| `TruthMaintenance.DependencyGraph.UpdateConsequentEdges` | rdflib-reasoning-engine/src/rdflib_reasoning/engine/rete/tms.py:68-92 | the antecedents of one fact become the kept ones, all other edges stay, and the directions stay mirrored |
| `TruthMaintenance.Unlink` | rdflib-reasoning-engine/src/rdflib_reasoning/engine/rete/tms.py:49-66 | one value disappears from the listed rows and nothing else changes |
| `TruthMaintenance.WorkingMemory.AddFact` | rdflib-reasoning-engine/src/rdflib_reasoning/engine/rete/tms.py:177-190 | a new fact gets the given flag; a known one is promoted when it is now stated and never demoted |
| `TruthMaintenance.TMSController.RegisterStated` | rdflib-reasoning-engine/src/rdflib_reasoning/engine/rete/tms.py:257-261 | exactly the given triples become facts and stated |
| `TruthMaintenance.TMSController.RecordDerivation` | rdflib-reasoning-engine/src/rdflib_reasoning/engine/rete/tms.py:263-293 | the fact and exactly one justification are added, without duplicates, and the dependency graph has exactly the edges of the justifications |
| `TruthMaintenance.TMSController.TransitiveDependentsOf` | rdflib-reasoning-engine/src/rdflib_reasoning/engine/rete/tms.py:411-425 | returns the least set that holds the direct dependents and is closed under dependence |
| `TruthMaintenance.TMSController.Verify` | rdflib-reasoning-engine/src/rdflib_reasoning/engine/rete/tms.py:492-523 | the kept candidates make the remaining facts exactly those that other stated facts and facts outside support, by the least such set |
| `TruthMaintenance.TMSController.Sweep` | rdflib-reasoning-engine/src/rdflib_reasoning/engine/rete/tms.py:525-568 | exactly the swept facts and the justifications that mention one of them disappear, and table and graph stay consistent |
| `TruthMaintenance.TMSController.RetractTriple` | rdflib-reasoning-engine/src/rdflib_reasoning/engine/rete/tms.py:427-474 | all four outcomes: absent, not stated, justified (only the flag is cleared), and swept with what loses its support; no other stated fact is removed |
| `Agendas.Agenda.Enqueue` | rdflib-reasoning-engine/src/rdflib_reasoning/engine/rete/agenda.py:48-51 | appends with negated salience, join depth and a fresh insertion rank |
| `Agendas.Agenda.Pop` | rdflib-reasoning-engine/src/rdflib_reasoning/engine/rete/agenda.py:58-60 | removes the one entry that precedes all others |
| `Agendas.Agenda.Drain` | rdflib-reasoning-engine/src/rdflib_reasoning/engine/rete/agenda.py:62-67 | presents every entry once: rules of higher salience first, then activations with fewer premises, then those enqueued earlier |
| `Engine.SupportIsClosure` | rdflib-reasoning-engine/src/rdflib_reasoning/engine/rete_engine.py:354-399 | when the justifications are exactly the rule instances over the facts, well-founded support from a base coincides with rule closure of the base |
| `Engine.AgendaRecorded` | rdflib-reasoning-engine/src/rdflib_reasoning/engine/rete_engine.py:354-399 | working off one agenda keeps the justifications complete: every rule instance over the facts is recorded, also when its conclusion was known, and nothing else |
| `Engine.AgendaShown` | rdflib-reasoning-engine/src/rdflib_reasoning/engine/rete_engine.py:383-399 | if the activations of an agenda that are neither silent nor hidden have their conclusions shown, every visible conclusion of an activation that is not hidden is shown |
| `Engine.AgendaHidden` | rdflib-reasoning-engine/src/rdflib_reasoning/engine/rete_engine.py:383-399 | the hidden activations after an agenda of the bootstrap phase are exactly those hidden before and those first matched while the facts grew |
| `Engine.SurvivingRecorded` | rdflib-reasoning-engine/src/rdflib_reasoning/engine/rete_engine.py:541-567 | after a sweep the surviving justifications are exactly the rule instances over the surviving facts, which are closed |
| `Engine.RETEEngine.RunAction` | rdflib-reasoning-engine/src/rdflib_reasoning/engine/rete_engine.py:354-399 | every permitted conclusion gains its justification before the newness test; exactly the new ones and the newly visible ones are returned |
| `Engine.RETEEngine.RunAgenda` | rdflib-reasoning-engine/src/rdflib_reasoning/engine/rete_engine.py:345-399 | in any order of the agenda, exactly the justifications of the acted-on activations are added, and the facts stay the least supported set |
| `Engine.RETEEngine.Saturate` | rdflib-reasoning-engine/src/rdflib_reasoning/engine/rete_engine.py:334-505 | terminates, because every round but the last grows the facts within a finite universe; at the exit the facts are closed and the justifications complete; what is returned is exactly what the activations that are not hidden conclude and was not materialized; in the bootstrap phase nothing is returned and exactly the newly matched activations become hidden |
| `Engine.RETEEngine.AddTriples` | rdflib-reasoning-engine/src/rdflib_reasoning/engine/rete_engine.py:301-332 | exactly the unknown triples with a resource as subject and an IRI as predicate become stated; the returned set is exactly what the visible activations that are not hidden conclude, less what was materialized and what was added; known triples change nothing |
| `Engine.RETEEngine.RunBootstrapRules` | rdflib-reasoning-engine/src/rdflib_reasoning/engine/rete_engine.py:569-579 | runs once; nothing becomes visible and nothing is forgotten; an activation is hidden afterwards if and only if it was before or was first matched in this run |
| `Engine.RETEEngine.Warmup` | rdflib-reasoning-engine/src/rdflib_reasoning/engine/rete_engine.py:581-584 | afterwards every permitted existing triple is known, only existing ones are stated, the result is what was materialized besides them, every part of it concluded by a visible activation that is not hidden, and hidden are exactly the activations first matched by the bootstrap run |
| `Engine.RETEEngine.RetractTriples` | rdflib-reasoning-engine/src/rdflib_reasoning/engine/rete_engine.py:507-567 | for any order of the inputs: the result is exactly what was forgotten, the stated inputs are no longer stated, those still known linger, and for some order of the inputs the result is what retracting one after the other removes |
| `Engine.RETEEngine.RetractInOrder` | rdflib-reasoning-engine/src/rdflib_reasoning/engine/rete_engine.py:541-567 | inputs visited in this order remove exactly what the sweeps, one after the other, remove |
| `Engine.RemovalsUnique` | rdflib-reasoning-engine/src/rdflib_reasoning/engine/rete_engine.py:541-567 | the state and the order of the inputs determine what a retraction removes |
| `Engine.KnownIsLeast` | rdflib-reasoning-engine/src/rdflib_reasoning/engine/rete_engine.py:334-505 | whenever the engine is idle the known facts are the least closed set over the stated and the lingering facts |
| `Firing.ClosedMeans` | rdflib-reasoning-engine/src/rdflib_reasoning/engine/rete/network.py:315-450 | a set is closed if and only if it holds what every rule asserts that fires on its facts: pairwise different facts that fit the conditions one by one, and for each guard the hook holds of the terms its arguments stand for, in their order |
| `Firing.FiredIsKnown` | rdflib-reasoning-engine/src/rdflib_reasoning/engine/rete/network.py:395-418 | for any bindings and distinct known facts that fit the conditions of a rule, the permitted heads are known if every guard holds of its own arguments |
| `Firing.RecordedMeans` | rdflib-reasoning-engine/src/rdflib_reasoning/engine/rete_engine.py:354-399 | an engine has recorded a justification if and only if its rule fires on the antecedents, guards included, and asserts the consequent |
| `Firing.ShownMeans` | rdflib-reasoning-engine/src/rdflib_reasoning/engine/rete_engine.py:383-399 | the visible conclusions are those of rules with conditions that are not silent and fire on known facts, by instances that are not hidden |
| `Firing.SubclassingCloses` | rdflib-reasoning-engine/src/rdflib_reasoning/engine/rulesets/rdfs.py:162-179 | under the subclass rule with its guard a set is closed if and only if members of a class are members of each other class above it |
| `Firing.SubclassRun` | rdflib-reasoning-engine/src/rdflib_reasoning/engine/rulesets/rdfs.py:162-179 | a run of that rule over a subclass triple and a member: the member of the superclass is known and handed out, and nothing else is |
| `Incremental.ExactIffLingeringEntailed` | rdflib-reasoning-engine/src/rdflib_reasoning/engine/rete_engine.py:507-567 | the engine equals a recomputation from its stated facts if and only if these entail every lingering fact |
| `Incremental.RetractOne` | rdflib-reasoning-engine/src/rdflib_reasoning/engine/rete_engine.py:507-567 | one retraction from an exact engine leaves an exact engine if and only if the triple had no rule instance or is still entailed |
| `Incremental.AcyclicSupportIsEntailment` | rdflib-reasoning-engine/src/rdflib_reasoning/engine/rete/tms.py:411-425 | a derivable triple that is not among its own transitive dependents is entailed by the other stated facts |
| `Incremental.RetractIfIndependent` | rdflib-reasoning-engine/src/rdflib_reasoning/engine/rete/tms.py:411-425 | a retraction made only after that check is always exact |
| `Incremental.RetractTwice` | rdflib-reasoning-engine/src/rdflib_reasoning/engine/rete_engine.py:507-567 | the same retraction a second time returns the empty set |
| `Incremental.Run` | rdflib-reasoning-engine/src/rdflib_reasoning/engine/rete_engine.py:301-567 | after any sequence of additions and retractions, the closure statement; exact if no retracted triple is known any more |
| `Incremental.Rebuild` | rdflib-reasoning-engine/src/rdflib_reasoning/engine/rete_engine.py:581-584 | a fresh engine warmed with the stated facts knows a subset, and the same set if and only if it knows the lingering facts |
| `RetractionLimits.SymmetricFactIsNotRetracted` | rdflib-reasoning-engine/src/rdflib_reasoning/engine/rete/tms.py:427-474 | a concrete run after which nothing is stated and a fact is still known |
| `RetractionLimits.OrderMatters` | rdflib-reasoning-engine/src/rdflib_reasoning/engine/rete_engine.py:541-567 | one call with the same two inputs from the same state: in one order everything is removed, in the other a fact stays although nothing is stated |
| `OrdinaryClosure.ClosedIff` | rdflib-reasoning-engine/src/rdflib_reasoning/engine/rete/network.py:349-390 | a set is closed in the ordinary sense if and only if it is closed for the engine and has the conclusions of every instance that uses a fact twice and of every guard-only rule whose guards pass |
| `OrdinaryClosure.LeastIff` | rdflib-reasoning-engine/src/rdflib_reasoning/engine/rete/network.py:349-390 | the closure the engine computes over a base is the ordinary one if and only if it has what the missed instances conclude |
| `OrdinaryClosure.KnownIsOrdinaryIff` | rdflib-reasoning-engine/src/rdflib_reasoning/engine/rete_engine.py:334-505 | what an engine knows is the ordinary closure of its stated and lingering facts under the same condition |
| `OrdinaryClosure.SafeAgrees` | rdflib-reasoning-engine/src/rdflib_reasoning/engine/rete/network.py:349-390 | if no two conditions of a rule unify and no rule has guards only, the two closures agree on every base |
| `OrdinaryClosure.UnsafeMisses` | rdflib-reasoning-engine/src/rdflib_reasoning/engine/rete/network.py:349-390 | a rule without guards that fails the test has an instance, over some facts, that the engine never fires |
| `OrdinaryClosure.AgreesIff` | rdflib-reasoning-engine/src/rdflib_reasoning/engine/rete/network.py:349-390 | the engine entails, from every base, exactly what the rules entail in the ordinary sense if and only if each instance it misses has conclusions that the premises of the instance entail for the engine |
| `OrdinaryClosure.AgreeingClosures` | rdflib-reasoning-engine/src/rdflib_reasoning/engine/rete/network.py:349-390 | where the entailments agree, the closure of any base is the ordinary one |
| `OrdinaryClosure.TransitivityAgrees` | rdflib-reasoning-engine/src/rdflib_reasoning/engine/rete/network.py:349-390 | a transitivity rule has conditions that unify, and yet the engine entails all that the rule does |
| `OrdinaryClosure.SolvesSolvable` | rdflib-reasoning-engine/src/rdflib_reasoning/engine/rete/network.py:315-340 | equations that some assignment of the variables satisfies pass unification |
| `OrdinaryClosure.SolvableSolved` | rdflib-reasoning-engine/src/rdflib_reasoning/engine/rete/network.py:315-340 | equations that pass unification are satisfied by some assignment |
| `OrdinaryClosure.FactUsedTwice` | rdflib-reasoning-engine/src/rdflib_reasoning/engine/rete/network.py:349-390 | a concrete run in which one fact in both places of a rule would conclude another, and the engine does not know it |
| `OrdinaryClosure.GuardOnlyIsMissed` | rdflib-reasoning-engine/src/rdflib_reasoning/engine/rete/network.py:425-450 | a program with a guard-only rule over which the empty set is closed for the engine and not in the ordinary sense |
| `Visibility.ShowsAllIff` | rdflib-reasoning-engine/src/rdflib_reasoning/engine/rete_engine.py:569-584 | a warmed engine has materialized every visible conclusion if and only if it has materialized those of the closure of the bootstrap rules alone |
| `Visibility.WarmedAlone` | rdflib-reasoning-engine/src/rdflib_reasoning/engine/rete_engine.py:569-584 | a new engine warmed with nothing materializes nothing; it shows all if and only if no visible activation over what the bootstrap rules entail concludes anything |
| `Visibility.NeverMaterialized` | rdflib-reasoning-engine/src/rdflib_reasoning/engine/rete_engine.py:383-399 | a concrete program whose visible conclusion is known and stays unmaterialized after any sequence of additions |
| `Worlds.GrownSound` | rdflib-reasoning-engine/src/rdflib_reasoning/engine/rete_store.py:204-215 | one addition event keeps store and engines in agreement, its own triple counted as in flight |
| `Worlds.Landed` | rdflib-reasoning-engine/src/rdflib_reasoning/engine/rete_store.py:217-231 | when the triples in flight reach the graphs, the agreement is complete |
| `Worlds.SecondBatch` | rdflib-reasoning-engine/src/rdflib_reasoning/engine/batch_dispatcher.py:157-186 | the follow-up batch of a removal finds nothing left to retract and changes nothing |
| `Worlds.CascadedRemoved` | rdflib-reasoning-engine/src/rdflib_reasoning/engine/rete_store.py:233-262 | the event of a removal, the removal and the flush together: a triple the engine kept returns, any other goes with exactly the facts that lose their support with it |
| `Worlds.LostDetermined` | rdflib-reasoning-engine/src/rdflib_reasoning/engine/rete_store.py:233-262 | what a removal loses is determined by what the engine knew and by what was stated |
| `Worlds.SweptLeavesClosure` | rdflib-reasoning-engine/src/rdflib_reasoning/engine/rete_store.py:233-262 | where nothing lingers, what is left after a removal is the closure of the other stated facts |
| `Worlds.RemovedSound` | rdflib-reasoning-engine/src/rdflib_reasoning/engine/rete_store.py:233-262 | an outermost removal keeps store and engines in agreement |
| `Stores.RETEStore.OnTripleAdded` | rdflib-reasoning-engine/src/rdflib_reasoning/engine/batch_dispatcher.py:125-155 | a present triple is dropped, a nested event is queued, and an outermost event drains in one or two batches and leaves queue and flag clear |
| `Stores.RETEStore.DrainAdditions` | rdflib-reasoning-engine/src/rdflib_reasoning/engine/batch_dispatcher.py:125-155 | the drain loop ends after at most one follow-up batch |
| `Stores.RETEStore.OnTriplesAdded` | rdflib-reasoning-engine/src/rdflib_reasoning/engine/rete_store.py:105-111 | the batch becomes known, what became visible reaches the graph, and the events of that are queued as one batch the engine knows |
| `Stores.RETEStore.EnsureEngine` | rdflib-reasoning-engine/src/rdflib_reasoning/engine/rete_store.py:84-103 | an engine is created once per context, warmed with the graph, and its deductions reach the graph without further inference |
| `Stores.RETEStore.AddN` | rdflib-reasoning-engine/src/rdflib_reasoning/engine/rete_store.py:217-231 | one event per quad, then all quads reach their graphs; agreement is kept, nothing is forgotten, and the graphs gain only the quads and what the engines show |
| `Stores.RETEStore.Add` | rdflib-reasoning-engine/src/rdflib_reasoning/engine/rete_store.py:204-215 | a present triple changes nothing; a new one is in the graph afterwards with everything it made visible, after at most two batches |
| `Stores.RETEStore.Open` | rdflib-reasoning-engine/src/rdflib_reasoning/engine/rete_store.py:184-192 | every context of the backing store has a warmed engine, and agreement is kept |
| `Stores.RETEStore.OnTripleRemoved` | rdflib-reasoning-engine/src/rdflib_reasoning/engine/batch_dispatcher.py:157-186 | an absent triple is dropped, a nested event is queued, and an outermost event retracts, cascades and drains in one or two batches |
| `Stores.RETEStore.OnTriplesRemoved` | rdflib-reasoning-engine/src/rdflib_reasoning/engine/rete_store.py:113-146 | the batch is retracted, the rest of the cascade leaves the graph, and what the engine kept of the batch is pending |
| `Stores.RETEStore.FlushRematerialize` | rdflib-reasoning-engine/src/rdflib_reasoning/engine/rete_store.py:148-177 | every pending triple of a context with an engine is reported once and re-added once, and re-adding touches nothing but the graph |
| `Stores.RETEStore.Remove` | rdflib-reasoning-engine/src/rdflib_reasoning/engine/rete_store.py:233-262 | a nested call only takes the triple out and queues its event; an outermost call leaves the store idle, with the triple removed or, if the engine still holds it, unchanged but for its stated flag |
| `Quiescence.SoundAgreed` | rdflib-reasoning-engine/src/rdflib_reasoning/engine/rete_store.py:46-177 | between calls each engine knows exactly the rule closure of the admissible part of its graph, all it shows is in the graph, and so is every visible conclusion of an activation that does not hold over what the bootstrap rules alone entail |
| `Quiescence.AllDisplayedIff` | rdflib-reasoning-engine/src/rdflib_reasoning/engine/rete_store.py:46-177 | in agreement every visible conclusion is in the graph if and only if those of the closure of the bootstrap rules are |
| `Quiescence.GraphDeterminesKnowledge` | rdflib-reasoning-engine/src/rdflib_reasoning/engine/rete_store.py:46-177 | equal graphs give equal knowledge, whatever calls led to them |
| `Quiescence.Play` | rdflib-reasoning-engine/src/rdflib_reasoning/engine/rete_store.py:184-262 | after opening over any content and any sequence of add, addN and remove, the store is idle and in agreement: knowledge is the closure of the graph, and the visible conclusions are in it as far as they are not those of the bootstrap rules alone |
| `Quiescence.RemoveOne` | rdflib-reasoning-engine/src/rdflib_reasoning/engine/rete_store.py:233-262 | a removal of a triple the engine still derives leaves graph, known and materialized facts unchanged and warns once; any other takes exactly the facts that lose their support out of the graph, and where nothing lingered the known facts are the closure of the other stated ones |
| `RdfLists.WalkRdfList` | rdflib-reasoning-axioms/src/rdflib_reasoning/axiom/axiomatize.py:2177-2249 | the loop returns exactly the cells of the recursive walk with their first and rest triples, or its first error |
| `RdfLists.WalkIsExact` | rdflib-reasoning-axioms/src/rdflib_reasoning/axiom/axiomatize.py:2177-2249 | on success the cells are distinct, linked from head to nil, without other predecessors, and the triples are exactly the unconsumed first and rest triples of the cells |
| `RdfLists.WalkFailsIff` | rdflib-reasoning-axioms/src/rdflib_reasoning/axiom/axiomatize.py:2177-2249 | on every graph the walk fails with a fault if and only if it can get over linked cells to a node where that fault is the first one: another predecessor, not one value, not one successor, a list triple that is taken, a literal as successor |
| `RdfLists.CycleIsNeverReported` | rdflib-reasoning-axioms/src/rdflib_reasoning/axiom/axiomatize.py:2177-2249 | the walk ends on every graph, and the cycle branch is never taken: a cyclic list fails an earlier check |
| `RdfLists.ParsedSeqOwned` | rdflib-reasoning-axioms/src/rdflib_reasoning/axiom/axiomatize.py:2108-2123 | the fragment made from an accepted list passes its own validators and owns all list triples that touch its cells |
| `RdfLists.WalkAcceptsOwned` | rdflib-reasoning-axioms/src/rdflib_reasoning/axiom/structural_element.py:256-293 | a valid fragment is walked back to exactly its entries if and only if the graph holds its triples for itself, none consumed |
| `RdfLists.FromRdflib` | rdflib-reasoning-axioms/src/rdflib_reasoning/axiom/structural_element.py:294-320 | wherever following rest ends, the loop returns the list that stands in the graph from the head to nil, each cell with one value and one successor that is a resource and no cell twice, and nothing if there is none |
| `RdfLists.AcceptedIsRead` | rdflib-reasoning-axioms/src/rdflib_reasoning/axiom/structural_element.py:294-320 | on every list the walker accepts, reading ends and yields the same entries |
| `RdfLists.SelfLoopNeverEnds` | rdflib-reasoning-axioms/src/rdflib_reasoning/axiom/structural_element.py:294-320 | a cell that is its own rest is one instance: reading does not end in any number of steps |
| `RdfLists.EndsIff` | rdflib-reasoning-axioms/src/rdflib_reasoning/axiom/structural_element.py:294-320 | on every graph and head, reading ends if and only if the chain of single-valued rest steps comes back to no node, and if and only if it ends within the number of subjects of rest |
| `Ordering.KeyIsInjective` | rdflib-reasoning-axioms/src/rdflib_reasoning/axiom/axiomatize.py:2451-2456 | different nodes have different sort keys |
| `Ordering.SortingIsUnique` | rdflib-reasoning-axioms/src/rdflib_reasoning/axiom/axiomatize.py:2445-2456 | a set of nodes or triples has one sorting only |
| `Ordering.SortSet` | rdflib-reasoning-axioms/src/rdflib_reasoning/axiom/axiomatize.py:2288-2294 | whatever order a set is met in, the result is its sorting |
| `Ordering.StableSortSorts` | rdflib-reasoning-axioms/src/rdflib_reasoning/axiom/axiomatize.py:207-207 | the result is sorted by key, a permutation, and keeps the order of elements with equal keys |
| `Lifting.Axiomatizer.AddElement` | rdflib-reasoning-axioms/src/rdflib_reasoning/axiom/axiomatize.py:2317-2330 | the claim is taken if and only if none of its triples is consumed, and then exactly these become consumed |
| `Lifting.Axiomatizer.ItemsOf` | rdflib-reasoning-axioms/src/rdflib_reasoning/axiom/axiomatize.py:2288-2315 | the work list of a pass is a function of the set of triples and of what is consumed |
| `Lifting.Axiomatizer.RunPass` | rdflib-reasoning-axioms/src/rdflib_reasoning/axiom/axiomatize.py:2087-2106 | a pass equals its specification over the sorted work list, also in its error |
| `Lifting.Axiomatizer.Run` | rdflib-reasoning-axioms/src/rdflib_reasoning/axiom/axiomatize.py:153-207 | the run equals the specification of all passes in order, the leftover check and the stable sort |
| `Lifting.Axiomatize` | rdflib-reasoning-axioms/src/rdflib_reasoning/axiom/axiomatize.py:2384-2400 | the result is a function of the set of triples alone |
| `Arrangement.LiftIsArranged` | rdflib-reasoning-axioms/src/rdflib_reasoning/axiom/axiomatize.py:2431-2443 | the lifted elements are ordered by name, IRIs before blank nodes and each by its text; among equal names plain declarations come last, and otherwise class names decide |
| `Arrangement.TripleLeIs` | rdflib-reasoning-axioms/src/rdflib_reasoning/axiom/axiomatize.py:2446-2459 | triples are worked through by subject, then predicate, then object, in the order of nodes |
| `Claims.OwnsListExact` | rdflib-reasoning-axioms/src/rdflib_reasoning/axiom/axiomatize.py:285-310 | an element that owns an operand list prints exactly the triples it claims |
| `Claims.HasFacetsExact` | rdflib-reasoning-axioms/src/rdflib_reasoning/axiom/axiomatize.py:682-725 | a datatype restriction prints exactly the triples it claims, cells and facet rows included |
| `Claims.FacetsParsed` | rdflib-reasoning-axioms/src/rdflib_reasoning/axiom/axiomatize.py:2125-2175 | facet parsing keeps the cells in order and takes the only non-list triple of each anchor |
| `Claims.RestrictsExact` | rdflib-reasoning-axioms/src/rdflib_reasoning/axiom/axiomatize.py:817-1259 | every restriction prints exactly the triples it claims |
| `Claims.OwnsMembersExact` | rdflib-reasoning-axioms/src/rdflib_reasoning/axiom/axiomatize.py:530-662 | an n-ary disjointness or difference prints the triples it claims, with the older list property renamed |
| `FacetErrors.EscapeIff` | rdflib-reasoning-axioms/src/rdflib_reasoning/axiom/axiomatize.py:2125-2175 | facet parsing fails with the error of the facet row if and only if at some cell the only non-list triple of the anchor is unclaimed and has a predicate that is not an IRI, and all cells before are in order |
| `FacetErrors.LiftEscapesIff` | rdflib-reasoning-axioms/src/rdflib_reasoning/axiom/axiomatize.py:682-725 | lifting fails with the error of the facet row if and only if the passes before are in order and, among the datatype restrictions in the order of names, the first one to fail has a list from which the error escapes |
| `FacetErrors.InvalidFacetCause` | rdflib-reasoning-axioms/src/rdflib_reasoning/axiom/axiomatize.py:2125-2175 | lifting fails that way only if an anchor on a list cell has such a triple as its only one; never where all predicates are IRIs |
| `FacetErrors.InvalidFacetEscapes` | rdflib-reasoning-axioms/src/rdflib_reasoning/axiom/axiomatize.py:682-725 | a concrete graph that lifts to that error |
| `Conservation.StepSound` | rdflib-reasoning-axioms/src/rdflib_reasoning/axiom/axiomatize.py:153-207 | every claim of every rule is exact |
| `Conservation.DifferencesSound` | rdflib-reasoning-axioms/src/rdflib_reasoning/axiom/axiomatize.py:615-662 | after the pass over n-ary differences every older list triple at one of them has been claimed |
| `Conservation.LiftIsPartition` | rdflib-reasoning-axioms/src/rdflib_reasoning/axiom/axiomatize.py:153-207 | if lifting succeeds, the elements print pairwise disjoint sets whose union is the input graph, only the older list property of n-ary differences renamed |
| `RoundTrip.LiftRoundTrip` | rdflib-reasoning-axioms/src/rdflib_reasoning/axiom/property_axiom.py:919-925 | for every graph that lifts, with older lists or without: lifting what the elements print gives the same elements; what they print is the graph itself if and only if it has no older list |
| `RoundTrip.AllPassesMirrored` | rdflib-reasoning-axioms/src/rdflib_reasoning/axiom/axiomatize.py:153-207 | all passes take the same steps on the printed graph: the same elements in the same order, claiming the printed triples |
| `RoundTrip.DifferenceSame` | rdflib-reasoning-axioms/src/rdflib_reasoning/axiom/axiomatize.py:615-662 | an n-ary difference with the older list property yields the same element when its list comes under the newer one |
| `RoundTrip.FacetsSame` | rdflib-reasoning-axioms/src/rdflib_reasoning/axiom/axiomatize.py:2125-2175 | where facets are parsed at all they are parsed alike in both graphs, since the node of such a difference is never an accepted anchor |
| `Conservation.ClashIsRejected` | rdflib-reasoning-axioms/src/rdflib_reasoning/axiom/axiomatize.py:615-662 | a graph in which an n-ary difference uses both list properties is never lifted |
| `Conformance.LiftConforms` | rdflib-reasoning-axioms/src/rdflib_reasoning/axiom/axiomatize.py:2332-2344 | every lifted element has the type, properties, operands and arity its class prints and validates |
| `Conformance.OlderPropertyClaimed` | rdflib-reasoning-axioms/src/rdflib_reasoning/axiom/axiomatize.py:153-207 | every triple with the older list property in a lifted graph belongs to an n-ary difference, to a property assertion, or to a datatype restriction as a facet |
| `Choices.LiftChooses` | rdflib-reasoning-axioms/src/rdflib_reasoning/axiom/axiomatize.py:1237-1259 | every element is of the class that the typing of the graph calls for, and an assertion is lifted only if another element names its class or property |
| `Gates.ElementNames` | rdflib-reasoning-axioms/src/rdflib_reasoning/axiom/axiomatize.py:1713-1990 | for every element but datatype restrictions and assertions: the classes, object properties and data properties it names are exactly what stands at such a place of the triples it prints, given the typing of the graph |
| `Assertions.ClaimedIff` | rdflib-reasoning-axioms/src/rdflib_reasoning/axiom/axiomatize.py:1776-2106 | for every graph whose passes end without an error: a triple has been claimed if and only if it is part of an element that is no assertion, or its class or property stands at such a place of the triples another element prints |
| `Assertions.UnsupportedIff` | rdflib-reasoning-axioms/src/rdflib_reasoning/axiom/axiomatize.py:153-207 | so lifting reports an unsupported triple if and only if there is one that is neither |
| `Negations.NegatedIff` | rdflib-reasoning-axioms/src/rdflib_reasoning/axiom/axiomatize.py:1880-2106 | for every graph whose passes end without an error: the negative assertions among the elements are exactly those the graph makes of a node, with one source, one property, one target of the right sort and none of the other, whose property stands at such a place of the triples another element prints |
| `Assertions.FlatLifts` | rdflib-reasoning-axioms/src/rdflib_reasoning/axiom/axiomatize.py:449-2106 | a graph of declarations, one-triple axioms and other triples of foreign properties and types lifts if and only if each axiom is acceptable and each other triple is an assertion whose class or property stands at one of its places in some triple; it is malformed if an axiom is not acceptable, and unsupported otherwise |
| `Shapes.OwnsListIff` | rdflib-reasoning-axioms/src/rdflib_reasoning/axiom/axiomatize.py:285-310 | a pass makes a given operand list of a node if and only if the node has the required type, the list is its only value, and the graph holds the list for itself, none of it consumed |
| `Shapes.HasFacetsIff` | rdflib-reasoning-axioms/src/rdflib_reasoning/axiom/axiomatize.py:682-725 | the same for a datatype restriction: type, datatype and list, and every anchor is there for its row alone |
| `Shapes.SimpleIff` | rdflib-reasoning-axioms/src/rdflib_reasoning/axiom/axiomatize.py:817-1259 | the same for restrictions to a value, to the thing itself and by unqualified counts |
| `Shapes.QualifiedIff` | rdflib-reasoning-axioms/src/rdflib_reasoning/axiom/axiomatize.py:817-1259 | the same for qualified counts: exactly one of the two qualifiers is there |
| `Shapes.FillerIff` | rdflib-reasoning-axioms/src/rdflib_reasoning/axiom/axiomatize.py:817-1259 | the same for a filler over one property, whose typing decides the class |
| `Shapes.FillerListIff` | rdflib-reasoning-axioms/src/rdflib_reasoning/axiom/axiomatize.py:817-1259 | the same for a filler over a list of properties |
| `Shapes.MembersIff` | rdflib-reasoning-axioms/src/rdflib_reasoning/axiom/axiomatize.py:530-662 | the same for lists of members under the newer property |
| `Faults.SubjectLeftAlone` | rdflib-reasoning-axioms/src/rdflib_reasoning/axiom/axiomatize.py:209-1259 | a pass over subjects leaves a node alone if and only if it lacks the type, has been claimed as a restriction already, or restricts no property; whatever else it does not make an element of is a fault |
| `Faults.StatementPassedOver` | rdflib-reasoning-axioms/src/rdflib_reasoning/axiom/axiomatize.py:449-1712 | a pass over statements passes over claimed triples and subjects that another pass is for, and nothing else |
| `Faults.KindIff` | rdflib-reasoning-axioms/src/rdflib_reasoning/axiom/axiomatize.py:1237-1259 | the class of a restriction with one value: typed as both kinds of property is a fault, and without a type it is a data restriction |
| `Faults.MembersUnder` | rdflib-reasoning-axioms/src/rdflib_reasoning/axiom/axiomatize.py:615-662 | a difference takes its list from the property that is there, the newer one or the older one, and both are a fault |
| `Faults.NegationIff` | rdflib-reasoning-axioms/src/rdflib_reasoning/axiom/axiomatize.py:1880-1948 | a negative assertion is made if and only if the node is unclaimed, has one source, one property and one target of the right sort and none of the other sort, and the property is known |
| `Faults.NegationPassedOver` | rdflib-reasoning-axioms/src/rdflib_reasoning/axiom/axiomatize.py:1880-1948 | it is passed over if and only if it is claimed, has no target of the sort, or is in order but for a property that is not known |
| `Alone.SubjectAlone` | rdflib-reasoning-axioms/src/rdflib_reasoning/axiom/axiomatize.py:153-207 | in the graph of one element no pass of the whole table but its own claims anything, so the element is lifted if its pass makes it |
| `Alone.AloneIff` | rdflib-reasoning-axioms/tests/test_axiomatize.py:321-453 | an expression or list axiom that conforms to its class and stands alone in a graph is lifted from what it prints if and only if its class is the one that an untyped graph calls for |
| `Alone.FacetsAlone` | rdflib-reasoning-axioms/tests/test_axiomatize.py:321-330 | a datatype restriction whose rows have their own anchors, with facets that no pass looks for, is lifted from what it prints |
| `Transcript.FindToolTranscriptIssue` | rdflib-reasoning-middleware/src/rdflib_reasoning/middleware/_message_heuristics.py:142-191 | the loop returns the first violation of the protocol, with its message and kind |
| `Protocol.CleanIff` | rdflib-reasoning-middleware/src/rdflib_reasoning/middleware/_message_heuristics.py:142-191 | the check passes if and only if every tool message has an id that the nearest earlier other message asks for and no reply in between has, and every id a turn asks for is answered before the next other message or the end |
| `Protocol.ReportedIff` | rdflib-reasoning-middleware/src/rdflib_reasoning/middleware/_message_heuristics.py:142-191 | what is reported is the first place where that fails: the reply as an orphan, or the turn as unresolved |
| `Transcript.HasRecentGuardReminder` | rdflib-reasoning-middleware/src/rdflib_reasoning/middleware/_message_heuristics.py:125-140 | true if and only if a reminder stands between the two latest assistant turns |
| `Transcript.DeletionKeepsPass` | rdflib-reasoning-middleware/src/rdflib_reasoning/middleware/continuation_guard_middleware.py:350-382 | deleting the first offender does not change what one left-to-right pass keeps |
| `Transcript.OnePassIdempotent` | rdflib-reasoning-middleware/src/rdflib_reasoning/middleware/continuation_guard_middleware.py:350-382 | one pass yields a clean transcript, is idempotent, and is the identity exactly on clean transcripts |
| `Transcript.PassIsClean` | rdflib-reasoning-middleware/src/rdflib_reasoning/middleware/_message_heuristics.py:142-191 | what one pass keeps passes the protocol check |
| `Transcript.PassOnlyDrops` | rdflib-reasoning-middleware/src/rdflib_reasoning/middleware/continuation_guard_middleware.py:350-382 | one pass drops nothing but tool messages and assistant turns with tool-call ids |
| `Protocol.TurnWithRepliesSurvives` | rdflib-reasoning-middleware/src/rdflib_reasoning/middleware/continuation_guard_middleware.py:350-382 | a turn and one reply for each of its distinct ids, in any order, survive the repair wherever they stand |
| `Transcript.DeleteOffenders` | rdflib-reasoning-middleware/src/rdflib_reasoning/middleware/continuation_guard_middleware.py:333-382 | the loop ends clean below its cap and keeps exactly the messages without a removed id, deleting in each round the first offender of what is left, under its kind; it fails only where that offender has no id; with distinct ids it equals one pass |
| `Transcript.DeletionsUnique` | rdflib-reasoning-middleware/src/rdflib_reasoning/middleware/continuation_guard_middleware.py:333-382 | for every transcript, unique ids or not: the rounds are determined, and end either in this clean transcript or at an offender without an id |
| `Transcript.RepairToolTranscript` | rdflib-reasoning-middleware/src/rdflib_reasoning/middleware/continuation_guard_middleware.py:333-422 | the result is clean; a reminder is added if and only if the transcript was repaired and not reminded already, and never directly after a tool message |
| `Guard.RunKeepsCounters` | rdflib-reasoning-middleware/src/rdflib_reasoning/middleware/continuation_guard_middleware.py:505-580 | over every run from the initial state the finalize count stays below five and the retry count below three, and a count belongs to a recorded call |
| `Guard.StretchCounts` | rdflib-reasoning-middleware/src/rdflib_reasoning/middleware/continuation_guard_middleware.py:860-940 | within a finalize-only stretch exactly the turns that ask for tools are counted, and nothing in between resets the count |
| `Guard.StretchStops` | rdflib-reasoning-middleware/src/rdflib_reasoning/middleware/continuation_guard_middleware.py:860-940 | the first four such turns are re-prompted and the fifth, or a recoverable one, stops the run |
| `Guard.ProseIsNeverStopped` | rdflib-reasoning-middleware/src/rdflib_reasoning/middleware/continuation_guard_middleware.py:966-1014 | from any state of the mode, any number of turns of prose that is not an answer leaves the run in it, and all of them are re-prompted |
| `Guard.StaysIff` | rdflib-reasoning-middleware/src/rdflib_reasoning/middleware/continuation_guard_middleware.py:860-1014 | a run stays in finalize-only mode if and only if no event answers or switches the mode back and the turns that ask for tools are at most four in all |
| `Guard.RepromptsCounted` | rdflib-reasoning-middleware/src/rdflib_reasoning/middleware/continuation_guard_middleware.py:860-1014 | such a run re-prompts exactly the turns that ask for tools and the turns of prose, so at most four more than the turns of prose |
| `Guard.RetriesCounted` | rdflib-reasoning-middleware/src/rdflib_reasoning/middleware/continuation_guard_middleware.py:582-673 | within a series of retries of one rejected call the stored count is the number of retries |
| `Guard.ThirdRetryStops` | rdflib-reasoning-middleware/src/rdflib_reasoning/middleware/continuation_guard_middleware.py:582-673 | the first two retries of a rejected call are re-prompted and the third stops the run |
| `GuardRuns.NormalOutcome` | rdflib-reasoning-middleware/src/rdflib_reasoning/middleware/continuation_guard_middleware.py:846-1119 | for every turn in normal mode: the hook ends the run if and only if the turn is the third retry of one rejected call or announces an answer that can be recovered; it re-prompts malformed calls, earlier retries, stalled recovery and plans, and lets every other turn pass |
| `GuardRuns.NormalReminder` | rdflib-reasoning-middleware/src/rdflib_reasoning/middleware/continuation_guard_middleware.py:582-722 | which reminder comes with it, and how: none that is there already, and behind a tool message no user message in place of a removed turn |
| `GuardRuns.NormalState` | rdflib-reasoning-middleware/src/rdflib_reasoning/middleware/continuation_guard_middleware.py:582-673 | what is on record afterwards: the retried call with its count while it may be retried again, and no call otherwise |
| `GuardRuns.FinalizeOutcome` | rdflib-reasoning-middleware/src/rdflib_reasoning/middleware/continuation_guard_middleware.py:860-1014 | for every turn in finalize-only mode: when the run ends, when it is re-prompted, whether the turn is removed, and when no reminder is added |
| `GuardRuns.BeforeOutcome` | rdflib-reasoning-middleware/src/rdflib_reasoning/middleware/continuation_guard_middleware.py:724-770 | the hook before a model call ends stopped runs only, forgets the rounds in normal mode and the call on record in finalize-only mode where it has repaired the transcript |
| `GuardRuns.StaysNormalIff` | rdflib-reasoning-middleware/src/rdflib_reasoning/middleware/continuation_guard_middleware.py:582-1119 | over every run from the initial state: it stays in normal mode if and only if no tool asks for the final answer, no answer is announced and no call is retried a third time in a row |
| `GuardRuns.NormalRunEnds` | rdflib-reasoning-middleware/src/rdflib_reasoning/middleware/continuation_guard_middleware.py:582-673 | after such a run a turn ends it if and only if it announces an answer or is the third retry of a streak |
| `GuardRuns.LetThroughIff` | rdflib-reasoning-middleware/src/rdflib_reasoning/middleware/continuation_guard_middleware.py:846-1119 | the guard lets a run of hooks through, and keeps its initial state, if and only if nothing is wrong with any of the turns |
| `GuardRuns.StretchStartsFresh` | rdflib-reasoning-middleware/src/rdflib_reasoning/middleware/continuation_guard_middleware.py:505-520 | after a hook before a model call in normal mode a stretch of finalize-only mode starts with no round counted |
| `Guard.StopIsFinal` | rdflib-reasoning-middleware/src/rdflib_reasoning/middleware/continuation_guard_middleware.py:724-730 | a stopped run stays stopped, and the next hook before a model call ends it |
| `Guard.EndIsFinal` | rdflib-reasoning-middleware/src/rdflib_reasoning/middleware/continuation_guard_middleware.py:724-1119 | once a hook of a run has ended it, the run stays stopped whatever happens after, and every later hook before a model call ends it again |
| `ProofTree.ReconstructUsesBest` | rdflib-reasoning-engine/src/rdflib_reasoning/engine/derivation.py:225-285 | every step of the tree, the root included, uses a record that concludes its goal such that each other such record is deeper (no depth counts as a thousand million), or as deep with more premises, or equal in both with more conclusions, or equal in all and later |
| `ProofTree.BuildIsProof` | rdflib-reasoning-engine/src/rdflib_reasoning/engine/derivation.py:259-285 | for any records, cyclic ones included: every step matches its record pointwise, no goal is proved by a step below a step for the same goal, and a leaf is cut or has no record |
| `ProofTree.ProvedIffRecorded` | rdflib-reasoning-engine/src/rdflib_reasoning/engine/derivation.py:287-306 | the verdict is proved if and only if some matching record exists |
| `ProofTree.LayeredIsGrounded` | rdflib-reasoning-engine/src/rdflib_reasoning/engine/derivation.py:259-285 | if every derivable premise has a shallower record, no goal is cut and every leaf has no record |
| `ProofTree.GroundedIffAcyclic` | rdflib-reasoning-engine/src/rdflib_reasoning/engine/derivation.py:259-285 | no goal of the tree is cut if and only if no goal it leads to through the premises of chosen records leads back to itself |
| `ProofTree.LayeredIsAcyclic` | rdflib-reasoning-engine/src/rdflib_reasoning/engine/derivation.py:259-285 | if every derivable premise has a shallower record, no goal leads back to itself |
| `ProofTree.TreeIsSound` | rdflib-reasoning-engine/src/rdflib_reasoning/engine/derivation.py:259-285 | a tree proves its goal from its leaves in every set of facts closed under the records |
| `ProofTree.ProvedFollows` | rdflib-reasoning-engine/src/rdflib_reasoning/engine/derivation.py:287-306 | a goal follows by the records from the leaves of its tree, and no record concludes any leaf if and only if no goal leads back to itself |
| `ProofTree.CyclicRecordsAreProved` | rdflib-reasoning-engine/src/rdflib_reasoning/engine/derivation.py:287-306 | two records that conclude each other are both proved, and lead back to themselves, although nothing follows from nothing |
| `TransitivePath.GetTransitivePath` | rdflib-reasoning-middleware/src/rdflib_reasoning/middleware/rdf_vocabulary_middleware.py:1122-1140 | ends on cyclic hierarchies and returns exactly the edges to resources whose source is reachable from the leaf |

## Left out

- Fact ids, justification ids and binding metadata: a fact is its triple, and a
  justification is its consequent, rule and premises; the digests are taken to
  be injective.
- The join-order optimizer and the rule compiler: rules are given in join order.
- Order inside the matcher: match lists are sets, because the agenda orders the
  activations.
- The error policy for literal subjects and non-IRI predicates, and every other
  exception raised in the middle of saturation: a triple that is not permitted
  is skipped, as in the warning policy.
- Callbacks, derivation loggers, contradiction records and contradiction-goal
  explanations: they observe a run and do not change the facts.
- Removals by wildcard, and `remove` or `add` without a context: they bypass the
  engine or rely on the wrapped store.
- `update`, `query`, `remove_graph`, `add_graph`, transactions and namespaces of
  the store: they delegate to the wrapped store.
- Real RDFLib graphs, N3 forms, IRI syntax and Pydantic's own machinery: a node
  is an IRI, a blank node or a literal with its N3 text. Contexts of elements
  are not represented, since one lifting has one context.
- Texts of error messages: an error is its class.
- Which graphs lift as a whole is stated exactly for graphs of declarations,
  one-triple axioms and assertions and for single elements; for graphs with
  several lists or restrictions it is stated node by node (`Shapes`, `Faults`)
  and triple by triple (`Assertions.ClaimedIff`).
- Alone.FacetsAlone: states no converse, since what becomes of a facet that other
  passes look for depends on the pass.
- Recognizing answers, plans and recovery prose by regular expressions, and
  signatures of tool calls: they are observations given to the guard (`Turn`).
- Assistant turns without a message id: the guard cannot remove them; a turn
  that is to be removed is taken to have one.
- Delivery of a pending system reminder by `wrap_model_call`, and message
  reducers of the agent framework.
- Rendering of proofs, notebooks, the vocabulary and dataset tools, documentation
  scripts: presentation.
- RdfLists.FromRdflib: is stated where following `rdf:rest` ends, which is where
  the source returns; the exact condition is `RdfLists.EndsIff`.
- Stores.RETEStore.Remove: is stated for exact triples with a context, nested in
  a removal or at the outermost level, because other patterns are not re-checked
  when pending triples return.
