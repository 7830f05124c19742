// The engine of one context: saturation to a fixed point and retraction.
module Engine {
  import opened Rdf
  import opened Rules
  import opened Support
  import opened TruthMaintenance
  import opened Matcher
  import opened Agendas

  // Justifications and activations

  function Reasons(a: Activation, conclusions: set<Triple>): set<Justification> {
    set c | c in conclusions :: Justification(c, a.rule.id, a.premises)
  }

  lemma ReasonsUnion(a: Activation, c: set<Triple>, d: set<Triple>)
    ensures Reasons(a, {}) == {}
    ensures Reasons(a, c + d) == Reasons(a, c) + Reasons(a, d)
  {
  }

  function JustificationsOf(a: Activation): set<Justification> {
    Reasons(a, Conclusions(a))
  }

  // J records every rule instance over the facts, and nothing else.
  ghost predicate Recorded(J: set<Justification>, prog: Program, booted: bool, facts: set<Triple>) {
    && (forall a :: IsActivation(prog, booted, a, facts) ==> JustificationsOf(a) <= J)
    && (forall j :: j in J ==> exists a :: IsActivation(prog, booted, a, facts) && j in JustificationsOf(a))
  }

  // Support read from the justifications coincides with rule closure.
  lemma SupportIsClosure(J: set<Justification>, prog: Program, booted: bool, base: set<Triple>, K: set<Triple>)
    requires Recorded(J, prog, booted, K) && base <= K
    requires forall j :: j in J ==> j.consequent in K
    ensures LeastSupported(J, base, K) <==> Least(prog, booted, base, K)
  {
    assert Closed(prog, booted, K) by {
      forall a, c | IsActivation(prog, booted, a, K) && c in Conclusions(a) ensures c in K {
        assert Justification(c, a.rule.id, a.premises) in JustificationsOf(a);
      }
    }
    if LeastSupported(J, base, K) {
      forall L: set<Triple> | base <= L && Closed(prog, booted, L) ensures K <= L {
        ClosedIsSupportClosed(J, prog, booted, K, L);
      }
    }
    if Least(prog, booted, base, K) {
      forall L: set<Triple> | base <= L && SupportClosed(J, L) ensures K <= L {
        SupportClosedIsClosed(J, prog, booted, K, L);
      }
    }
  }

  lemma ClosedIsSupportClosed(J: set<Justification>, prog: Program, booted: bool, K: set<Triple>, L: set<Triple>)
    requires Recorded(J, prog, booted, K) && Closed(prog, booted, L)
    requires forall j :: j in J ==> j.consequent in K
    ensures SupportClosed(J, L * K)
  {
    forall j | j in J && Grounded(j, L * K) ensures j.consequent in L * K {
      var a :| IsActivation(prog, booted, a, K) && j in JustificationsOf(a);
      ActivationMonotone(prog, booted, a, K, L);
    }
  }

  lemma SupportClosedIsClosed(J: set<Justification>, prog: Program, booted: bool, K: set<Triple>, L: set<Triple>)
    requires Recorded(J, prog, booted, K) && SupportClosed(J, L) && Closed(prog, booted, K)
    ensures Closed(prog, booted, L * K)
  {
    forall a, c | IsActivation(prog, booted, a, L * K) && c in Conclusions(a) ensures c in L * K {
      ActivationMonotone(prog, booted, a, L * K, K);
      var j := Justification(c, a.rule.id, a.premises);
      assert j in JustificationsOf(a) && Grounded(j, L);
    }
  }

  // After a sweep that kept the support closed, the surviving justifications
  // are those of the surviving facts.
  lemma SurvivingRecorded(J: set<Justification>, prog: Program, booted: bool, facts: set<Triple>, removed: set<Triple>)
    requires Recorded(J, prog, booted, facts) && SupportClosed(J, facts - removed)
    ensures Recorded(Surviving(J, removed), prog, booted, facts - removed)
    ensures Closed(prog, booted, facts - removed)
  {
    var rest := facts - removed;
    forall a, j | IsActivation(prog, booted, a, rest) && j in JustificationsOf(a) ensures j in Surviving(J, removed) {
      ActivationMonotone(prog, booted, a, rest, facts);
      assert Grounded(j, rest);
    }
    forall a, c | IsActivation(prog, booted, a, rest) && c in Conclusions(a) ensures c in rest {
      ActivationMonotone(prog, booted, a, rest, facts);
      var j := Justification(c, a.rule.id, a.premises);
      assert j in JustificationsOf(a) && Grounded(j, rest);
    }
    forall j | j in Surviving(J, removed)
      ensures exists a :: IsActivation(prog, booted, a, rest) && j in JustificationsOf(a)
    {
      var a :| IsActivation(prog, booted, a, facts) && j in JustificationsOf(a);
      ActivationMonotone(prog, booted, a, facts, rest);
    }
  }

  // Complete justifications are determined by the facts.
  lemma RecordedUnique(J: set<Justification>, L: set<Justification>, prog: Program, booted: bool, facts: set<Triple>)
    requires Recorded(J, prog, booted, facts) && Recorded(L, prog, booted, facts)
    ensures J == L
  {
    hide IsActivation, JustificationsOf;
    forall j ensures j in J <==> j in L {
      if j in J {
        var a :| IsActivation(prog, booted, a, facts) && j in JustificationsOf(a);
      }
      if j in L {
        var a :| IsActivation(prog, booted, a, facts) && j in JustificationsOf(a);
      }
    }
  }

  lemma SurvivingTwice(J: set<Justification>, r1: set<Triple>, r2: set<Triple>)
    ensures Surviving(Surviving(J, r1), r2) == Surviving(J, r1 + r2)
  {
  }

  lemma SurvivingClosed(J: set<Justification>, removed: set<Triple>, facts: set<Triple>, facts': set<Triple>)
    requires SupportClosed(J, facts) && facts !! removed && facts' <= facts
    requires SupportClosed(Surviving(J, removed), facts')
    ensures SupportClosed(J, facts')
  {
    forall j | j in J && Grounded(j, facts') ensures j.consequent in facts' {
      assert Grounded(j, facts);
      assert j in Surviving(J, removed);
    }
  }

  // Some rule instance over the facts concludes t.
  ghost predicate Derivable(prog: Program, booted: bool, facts: set<Triple>, t: Triple) {
    exists a :: IsActivation(prog, booted, a, facts) && t in Conclusions(a)
  }

  lemma DerivableIffJustified(J: set<Justification>, prog: Program, booted: bool, facts: set<Triple>, t: Triple)
    requires Recorded(J, prog, booted, facts)
    ensures Derivable(prog, booted, facts, t) <==> exists j :: j in J && j.consequent == t
  {
    if a :| IsActivation(prog, booted, a, facts) && t in Conclusions(a) {
      var j := Justification(t, a.rule.id, a.premises);
      assert j in JustificationsOf(a) && j.consequent == t;
    }
  }

  // Conclusions the store gets to see.
  ghost predicate Shown(prog: Program, booted: bool, known: set<Triple>, hidden: set<Activation>, shown: set<Triple>) {
    forall a :: IsActivation(prog, booted, a, known) && !a.rule.silent && a.rule.body != [] && a !in hidden ==>
      Conclusions(a) <= shown
  }

  lemma ShownGrows(prog: Program, booted: bool, known: set<Triple>, hidden: set<Activation>, shown: set<Triple>, more: set<Triple>)
    requires Shown(prog, booted, known, hidden, shown) && shown <= more
    ensures Shown(prog, booted, known, hidden, more)
  {
    hide IsActivation, Conclusions;
  }

  // A rule instance whose conclusions the store gets to see.
  ghost predicate Displays(prog: Program, known: set<Triple>, a: Activation) {
    IsActivation(prog, true, a, known) && !a.rule.silent && a.rule.body != []
  }

  // Such an instance, not among the hidden ones, concludes t.
  ghost predicate Manifest(prog: Program, known: set<Triple>, hidden: set<Activation>, t: Triple) {
    exists a :: Displays(prog, known, a) && a !in hidden && t in Conclusions(a)
  }

  // Everything shown was concluded by an instance that is not hidden.
  ghost predicate Visible(prog: Program, known: set<Triple>, hidden: set<Activation>, shown: set<Triple>) {
    forall t :: t in shown ==> Manifest(prog, known, hidden, t)
  }

  // Instances of conditions over these facts.
  ghost predicate InstancesOver(prog: Program, hidden: set<Activation>, facts: set<Triple>) {
    forall a :: a in hidden ==> a.rule.body != [] && IsActivation(prog, true, a, facts)
  }

  // The instances that were first matched while the facts grew.
  ghost predicate NewlyMatched(prog: Program, a: Activation, facts: set<Triple>, before: set<Triple>) {
    a.rule.body != [] && IsActivation(prog, true, a, facts) && !IsActivation(prog, true, a, before)
  }

  // What retracting one triple removes: a sweep if it is stated and nothing
  // justifies it, and nothing otherwise.
  ghost predicate Removes(J: set<Justification>, facts: set<Triple>, stated: set<Triple>, t: Triple, removed: set<Triple>) {
    if t in stated && forall j :: j in J ==> j.consequent != t then Swept(J, facts, stated, t, removed) else removed == {}
  }

  // What retracting triples one after the other removes.
  ghost predicate Removals(J: set<Justification>, facts: set<Triple>, stated: set<Triple>, order: seq<Triple>, cascade: set<Triple>)
    decreases |order|
  {
    if order == [] then cascade == {}
    else
      var before, t := order[..|order| - 1], order[|order| - 1];
      exists gone, removed ::
        && Removals(J, facts, stated, before, gone) && cascade == gone + removed
        && Removes(Surviving(J, gone), facts - gone, stated - SetOf(before), t, removed)
  }

  // What one call removes, for some order of its inputs.
  ghost predicate Retracts(J: set<Justification>, facts: set<Triple>, stated: set<Triple>, inputs: set<Triple>, cascade: set<Triple>) {
    exists order :: SetOf(order) == inputs && Removals(J, facts, stated, order, cascade)
  }

  lemma RemovalsPlus(J: set<Justification>, facts: set<Triple>, stated: set<Triple>, before: seq<Triple>, gone: set<Triple>,
                     t: Triple, removed: set<Triple>)
    requires Removals(J, facts, stated, before, gone)
    requires Removes(Surviving(J, gone), facts - gone, stated - SetOf(before), t, removed)
    ensures Removals(J, facts, stated, before + [t], gone + removed)
  {
    hide Removes, Surviving;
    assert (before + [t])[..|before|] == before;
  }

  // Retracting only what is justified, or not stated, removes nothing.
  lemma {:induction false} RemovalsOfSupported(J: set<Justification>, facts: set<Triple>, stated: set<Triple>,
                                               order: seq<Triple>, cascade: set<Triple>)
    requires Removals(J, facts, stated, order, cascade)
    requires forall t :: t in order && t in stated ==> exists j :: j in J && j.consequent == t
    ensures cascade == {}
    decreases |order|
  {
    if order != [] {
      var before, t := order[..|order| - 1], order[|order| - 1];
      var gone, removed :|
        && Removals(J, facts, stated, before, gone) && cascade == gone + removed
        && Removes(Surviving(J, gone), facts - gone, stated - SetOf(before), t, removed);
      RemovalsOfSupported(J, facts, stated, before, gone);
      SurvivingAll(J);
      assert t in order;
    }
  }

  lemma SurvivingAll(J: set<Justification>)
    ensures Surviving(J, {}) == J
  {
  }

  // A single input, visited any number of times, is removed once.
  lemma {:induction false} RemovalsOfOne(J: set<Justification>, facts: set<Triple>, stated: set<Triple>, t: Triple,
                                         order: seq<Triple>, cascade: set<Triple>)
    requires Removals(J, facts, stated, order, cascade) && SetOf(order) == {t}
    ensures Removes(J, facts, stated, t, cascade)
    decreases |order|
  {
    assert t in SetOf(order);
    var before, last := order[..|order| - 1], order[|order| - 1];
    assert last in SetOf(order);
    var gone, removed :|
      && Removals(J, facts, stated, before, gone) && cascade == gone + removed
      && Removes(Surviving(J, gone), facts - gone, stated - SetOf(before), last, removed);
    if before == [] {
      SurvivingAll(J);
      assert facts - gone == facts && stated - SetOf(before) == stated && cascade == removed;
    } else {
      assert before[0] in SetOf(before) && before[0] in SetOf(order);
      assert forall x :: x in before ==> x in order;
      assert SetOf(before) == {t};
      RemovalsOfOne(J, facts, stated, t, before, gone);
      assert cascade == gone;
    }
  }

  lemma RetractsOne(J: set<Justification>, facts: set<Triple>, stated: set<Triple>, t: Triple, cascade: set<Triple>)
    requires Retracts(J, facts, stated, {t}, cascade)
    ensures Removes(J, facts, stated, t, cascade)
  {
    var order :| SetOf(order) == {t} && Removals(J, facts, stated, order, cascade);
    RemovalsOfOne(J, facts, stated, t, order, cascade);
  }

  lemma RetractsSupported(J: set<Justification>, facts: set<Triple>, stated: set<Triple>, inputs: set<Triple>, cascade: set<Triple>)
    requires Retracts(J, facts, stated, inputs, cascade)
    requires forall t :: t in inputs * stated ==> exists j :: j in J && j.consequent == t
    ensures cascade == {}
  {
    var order :| SetOf(order) == inputs && Removals(J, facts, stated, order, cascade);
    forall t | t in order && t in stated ensures exists j :: j in J && j.consequent == t {
      assert t in SetOf(order);
      assert t in inputs * stated;
    }
    RemovalsOfSupported(J, facts, stated, order, cascade);
  }

  // Truth maintenance leaves no choice: the order of the inputs settles what
  // is removed.
  lemma {:induction false} RemovalsUnique(J: set<Justification>, facts: set<Triple>, stated: set<Triple>,
                                          order: seq<Triple>, c: set<Triple>, d: set<Triple>)
    requires Removals(J, facts, stated, order, c) && Removals(J, facts, stated, order, d)
    ensures c == d
    decreases |order|
  {
    if order != [] {
      var before, t := order[..|order| - 1], order[|order| - 1];
      var gone, removed :|
        && Removals(J, facts, stated, before, gone) && c == gone + removed
        && Removes(Surviving(J, gone), facts - gone, stated - SetOf(before), t, removed);
      var gone', removed' :|
        && Removals(J, facts, stated, before, gone') && d == gone' + removed'
        && Removes(Surviving(J, gone'), facts - gone', stated - SetOf(before), t, removed');
      RemovalsUnique(J, facts, stated, before, gone, gone');
      RemovesUnique(Surviving(J, gone), facts - gone, stated - SetOf(before), t, removed, removed');
    }
  }

  lemma RemovesUnique(J: set<Justification>, facts: set<Triple>, stated: set<Triple>, t: Triple, c: set<Triple>, d: set<Triple>)
    requires Removes(J, facts, stated, t, c) && Removes(J, facts, stated, t, d)
    ensures c == d
  {
    if t in stated && forall j :: j in J ==> j.consequent != t {
      SweptUnique(J, facts, stated, t, c, d);
    }
  }

  class RETEEngine {
    const prog: Program
    const tms: TMSController
    const matcher: Network
    var known: set<Triple>
    var materialized: set<Triple>
    var bootstrapCompleted: bool
    // Triples that were retracted while a justification kept them, and that
    // are still known.
    ghost var lingering: set<Triple>
    // Instances that were first matched during the bootstrap phase and whose
    // premises are all still known. The store never sees what they conclude.
    ghost var hidden: set<Activation>
    // The facts that were known when the bootstrap phase ended.
    ghost var boot: set<Triple>

    ghost function Repr(): set<object> {
      {this, matcher} + tms.Repr()
    }

    ghost function Stated(): set<Triple>
      reads tms.memory
    {
      tms.Stated()
    }

    ghost predicate Wired()
      reads Repr()
    {
      && tms.Valid() && matcher.Valid() && matcher.prog == prog
      && tms.memory.facts.Keys == known
    }

    ghost predicate Valid()
      reads Repr()
    {
      && Wired()
      && matcher.covered == known
      && Recorded(tms.Justified(), prog, bootstrapCompleted, known)
      && LeastSupported(tms.Justified(), Stated() + lingering, known)
      && lingering !! Stated()
      && Stated() <= materialized <= known
      && Shown(prog, bootstrapCompleted, known, hidden, materialized)
      && InstancesOver(prog, hidden, known)
      && AllPermitted(known)
    }

    // An engine that was warmed before anything was stated: hidden are exactly
    // the instances over what the bootstrap rules alone entail.
    ghost predicate Warmed()
      reads Repr()
    {
      && Valid() && bootstrapCompleted
      && Least(prog, true, {}, boot) && boot <= known
      && forall a :: a in hidden <==> NewlyMatched(prog, a, boot, {})
    }

    constructor (prog: Program)
      ensures Valid() && fresh(Repr())
      ensures this.prog == prog && !bootstrapCompleted
      ensures known == materialized == {} && Stated() == lingering == {} && hidden == {}
    {
      this.prog := prog;
      tms := new TMSController();
      matcher := new Network(prog);
      known, materialized, bootstrapCompleted := {}, {}, false;
      lingering, hidden, boot := {}, {}, {};
      new;
      forall a ensures !IsActivation(prog, false, a, {}) {
        assert |a.premises| > 0 ==> a.premises[0] in a.premises;
      }
    }

    // Run agenda iterations to the fixed point. Every iteration matches the
    // working memory, works off the agenda, and ends the loop when it found no
    // new fact.
    method Saturate(materialize: bool, bootstrapPhase: bool) returns (shown: set<Triple>)
      requires Wired() && matcher.covered <= known && (bootstrapPhase ==> bootstrapCompleted)
      requires Minimal(tms.Justified(), Stated() + lingering, known)
      requires Recorded(tms.Justified(), prog, bootstrapCompleted && !bootstrapPhase, matcher.covered)
      requires Shown(prog, bootstrapCompleted && !bootstrapPhase, matcher.covered, hidden, materialized)
      requires InstancesOver(prog, hidden, matcher.covered)
      requires Stated() <= materialized <= known && lingering !! Stated() && AllPermitted(known)
      requires materialize == !bootstrapPhase
      modifies Repr()
      ensures Valid()
      ensures old(known) <= known && bootstrapCompleted == old(bootstrapCompleted)
      ensures Stated() == old(Stated()) && lingering == old(lingering)
      ensures materialized == old(materialized) + shown && shown !! old(materialized)
      ensures boot == old(boot) && (materialize ==> hidden == old(hidden))
      ensures materialize ==>
        forall t :: t in shown <==> Manifest(prog, known, hidden, t) && t !in old(materialized)
      ensures !materialize ==> shown == {}
      ensures !materialize ==>
        forall a :: a in hidden <==> a in old(hidden) || NewlyMatched(prog, a, known, old(matcher.covered))
    {
      hide Manifest, Visible, NewlyMatched, Minimal, Recorded, Shown, InstancesOver;
      shown := {};
      ghost var terms := Vocabulary(prog, known);
      KnownInUniverse(prog, known);
      NothingVisible(prog, known, hidden);
      NoneMatched(prog, matcher.covered);
      hide Universe;
      ghost var booted := bootstrapCompleted && !bootstrapPhase;
      assert Round(booted, terms);
      hide Round;
      while true
        invariant Round(booted, terms) && bootstrapCompleted == (booted || bootstrapPhase) == old(bootstrapCompleted)
        invariant old(matcher.covered) <= matcher.covered <= known <= Universe(terms) && old(known) <= known
        invariant Stated() == old(Stated()) && lingering == old(lingering) && boot == old(boot)
        invariant materialized == old(materialized) + shown && shown !! old(materialized)
        invariant materialize ==> hidden == old(hidden) && Visible(prog, known, hidden, shown)
        invariant !materialize ==> shown == {}
        invariant !materialize ==>
          forall a :: a in hidden <==> a in old(hidden) || NewlyMatched(prog, a, matcher.covered, old(matcher.covered))
        decreases Universe(terms) - known
      {
        ghost var covered, before := matcher.covered, known;
        var iterationNew, iterationShown := Iterate(materialize, bootstrapPhase, booted, terms);
        MatchedInSteps(prog, old(matcher.covered), covered, matcher.covered);
        if materialize {
          VisibleMonotone(prog, before, known, hidden, shown);
          VisibleUnion(prog, known, hidden, shown, iterationShown);
        }
        booted := bootstrapCompleted;
        shown := shown + iterationShown;
        if iterationNew == {} {
          break;
        }
      }
      RoundEnds(bootstrapCompleted, terms);
      ShownManifest(prog, bootstrapCompleted, known, hidden, materialized);
      VisibleManifest(prog, known, hidden, shown);
    }

    lemma RoundEnds(booted: bool, terms: set<Node>)
      requires Round(booted, terms) && matcher.covered == known && booted == bootstrapCompleted
      ensures Valid() && Shown(prog, bootstrapCompleted, known, hidden, materialized)
    {
      hide Recorded, Shown, InstancesOver;
      forall j | j in tms.Justified() ensures j.consequent in known {
        var t :| t in tms.justifications && j in tms.justifications[t];
      }
    }

    // What holds whenever the agenda is about to be rebuilt.
    ghost predicate Round(booted: bool, terms: set<Node>)
      reads Repr()
    {
      && Wired() && matcher.covered <= known <= Universe(terms) && HeadNodes(prog) <= terms
      && Minimal(tms.Justified(), Stated() + lingering, known)
      && Recorded(tms.Justified(), prog, booted, matcher.covered)
      && Shown(prog, booted, matcher.covered, hidden, materialized)
      && InstancesOver(prog, hidden, matcher.covered)
      && Stated() <= materialized <= known && lingering !! Stated() && AllPermitted(known)
    }

    // One round: match, work off the agenda, and take over what it found.
    method Iterate(materialize: bool, bootstrapPhase: bool, ghost booted: bool, ghost terms: set<Node>)
      returns (iterationNew: set<Triple>, iterationShown: set<Triple>)
      requires Round(booted, terms)
      requires materialize == !bootstrapPhase && bootstrapCompleted == (booted || bootstrapPhase)
      modifies Repr()
      ensures Round(bootstrapCompleted, terms) && known <= Universe(terms)
      ensures matcher.covered == old(known) && known == old(known) + iterationNew && iterationNew !! old(known)
      ensures materialized == old(materialized) + iterationShown && iterationShown !! old(materialized)
      ensures bootstrapCompleted == old(bootstrapCompleted) && boot == old(boot)
      ensures Stated() == old(Stated()) && lingering == old(lingering)
      ensures materialize ==> hidden == old(hidden) && Visible(prog, known, hidden, iterationShown)
      ensures !materialize ==> iterationShown == {}
      ensures !materialize ==>
        forall a :: a in hidden <==> a in old(hidden) || NewlyMatched(prog, a, matcher.covered, old(matcher.covered))
    {
      hide IsActivation, Minimal, Recorded, Shown, Visible, Universe, Reported, InstancesOver, NewlyMatched;
      ghost var J, covered := tms.Justified(), matcher.covered;
      var actions := NextAgenda();
      AgendaHidden(prog, covered, known, actions, hidden);
      iterationNew, iterationShown := RunAgenda(actions, materialize, bootstrapPhase, terms);
      AgendaRecorded(J, tms.Justified(), prog, booted, bootstrapCompleted, covered, known, actions, bootstrapPhase);
      if !materialize {
        hidden := hidden + Conditional(actions);
      }
      AgendaShown(prog, booted, bootstrapCompleted, covered, known, actions, bootstrapPhase,
        old(hidden), hidden, materialized, materialized + iterationShown);
      VisibleMonotone(prog, known, known + iterationNew, hidden, iterationShown);
      known := known + iterationNew;
      materialized := materialized + iterationShown;
    }

    // Match the working memory and put the new activations in order.
    method NextAgenda() returns (actions: seq<Activation>)
      requires matcher.Valid() && matcher.prog == prog && matcher.covered <= known
      modifies matcher
      ensures matcher.Valid() && matcher.covered == known
      ensures forall a :: a in actions <==> Reported(prog, a, known, old(matcher.covered))
    {
      hide Reported;
      var acts := matcher.MatchTerminals(known);
      var queue := Enumerate(acts);
      var agenda := new Agenda(queue);
      var order := agenda.Drain();
      DrainedAll(acts, queue, order);
      actions := Actions(order);
    }

    // Work off the agenda, in whatever order it presents the activations.
    method RunAgenda(actions: seq<Activation>, materialize: bool, bootstrapPhase: bool, ghost terms: set<Node>)
      returns (iterationNew: set<Triple>, iterationShown: set<Triple>)
      requires tms.Valid() && tms.memory.facts.Keys == known && known <= Universe(terms) && HeadNodes(prog) <= terms
      requires materialize == !bootstrapPhase
      requires Minimal(tms.Justified(), Stated() + lingering, known)
      requires forall a :: a in actions ==> IsActivation(prog, true, a, known)
      requires forall a :: a in actions && a.rule.body != [] ==> a !in hidden
      modifies tms.Repr()
      ensures tms.Valid() && tms.memory.facts.Keys == known + iterationNew && known + iterationNew <= Universe(terms)
      ensures iterationNew !! known && AllPermitted(iterationNew) && Stated() == old(Stated())
      ensures Minimal(tms.Justified(), Stated() + lingering, known + iterationNew)
      ensures forall j :: j in tms.Justified() <==>
        j in old(tms.Justified()) || exists a :: a in actions && Acted(a, bootstrapPhase) && j in JustificationsOf(a)
      ensures iterationShown <= known + iterationNew && iterationShown !! materialized
      ensures forall a :: a in actions && Acted(a, bootstrapPhase) && materialize && !a.rule.silent ==>
        Conclusions(a) <= materialized + iterationShown
      ensures Visible(prog, known, hidden, iterationShown)
      ensures !materialize ==> iterationShown == {}
    {
      hide IsActivation, Minimal, Universe, Visible;
      iterationNew, iterationShown := {}, {};
      NothingVisible(prog, known, hidden);
      ghost var J, base := tms.Justified(), Stated() + lingering;
      assert known + {} == known;
      for i := 0 to |actions|
        invariant WorkedOff(J, base, actions[..i], materialize, bootstrapPhase, iterationNew, iterationShown, terms)
        invariant Stated() == old(Stated())
      {
        assert actions[..i + 1] == actions[..i] + [actions[i]];
        iterationNew, iterationShown :=
          RunNext(J, base, actions[..i], actions[i], materialize, bootstrapPhase, iterationNew, iterationShown, terms);
      }
      assert actions[..|actions|] == actions;
    }

    // What holds when these activations have been worked off.
    ghost predicate WorkedOff(J: set<Justification>, base: set<Triple>, done: seq<Activation>, materialize: bool,
                              bootstrapPhase: bool, iterationNew: set<Triple>, iterationShown: set<Triple>, terms: set<Node>)
      reads Repr()
    {
      && tms.Valid() && tms.memory.facts.Keys == known + iterationNew && known + iterationNew <= Universe(terms)
      && iterationNew !! known && AllPermitted(iterationNew)
      && Minimal(tms.Justified(), base, known + iterationNew)
      && (forall j :: j in tms.Justified() <==>
            j in J || exists a :: a in done && Acted(a, bootstrapPhase) && j in JustificationsOf(a))
      && iterationShown <= known + iterationNew && iterationShown !! materialized
      && (forall a :: a in done && Acted(a, bootstrapPhase) && materialize && !a.rule.silent ==>
            Conclusions(a) <= materialized + iterationShown)
      && Visible(prog, known, hidden, iterationShown)
      && (!materialize ==> iterationShown == {})
    }

    method RunNext(ghost J: set<Justification>, ghost base: set<Triple>, ghost done: seq<Activation>, a: Activation,
                   materialize: bool, bootstrapPhase: bool, iterationNew: set<Triple>, iterationShown: set<Triple>,
                   ghost terms: set<Node>)
      returns (found: set<Triple>, shown: set<Triple>)
      requires WorkedOff(J, base, done, materialize, bootstrapPhase, iterationNew, iterationShown, terms)
      requires IsActivation(prog, true, a, known) && (a.rule.body != [] ==> a !in hidden)
      requires materialize == !bootstrapPhase && known <= Universe(terms) && HeadNodes(prog) <= terms
      modifies tms.Repr()
      ensures WorkedOff(J, base, done + [a], materialize, bootstrapPhase, found, shown, terms)
      ensures Stated() == old(Stated())
    {
      hide IsActivation, Minimal, Universe, Visible, Conclusions;
      found, shown := iterationNew, iterationShown;
      if Acted(a, bootstrapPhase) {
        ActivationFacts(prog, a, known);
        ActivationMonotone(prog, true, a, known, known + iterationNew);
        ActionMinimal(tms.Justified(), base, known + iterationNew, prog, a);
        ConclusionsStayInUniverse(prog, true, a, known, terms);
        MoreVisible(prog, known, hidden, iterationShown, a, Conclusions(a) - materialized);
        found, shown := RunAction(a, materialize, iterationNew, iterationShown);
        assert known + found == known + iterationNew + Conclusions(a);
        ConclusionsPermitted(a);
      }
      assert forall x :: x in done + [a] <==> x in done || x == a;
      assert shown == iterationShown || shown == iterationShown + (Conclusions(a) - materialized);
    }

    // Record every conclusion of one activation before testing whether it is
    // new, so that a fact known already still gains the justification.
    method RunAction(a: Activation, materialize: bool, iterationNew: set<Triple>, iterationShown: set<Triple>)
      returns (found: set<Triple>, shown: set<Triple>)
      requires tms.Valid() && tms.memory.facts.Keys == known + iterationNew
      requires forall t :: t in a.premises ==> t in known
      requires forall h :: h in a.rule.head ==> PatternVars(h) <= a.bindings.Keys
      modifies tms.Repr()
      ensures tms.Valid() && tms.memory.facts.Keys == known + found
      ensures Stated() == old(Stated())
      ensures tms.Justified() == old(tms.Justified()) + JustificationsOf(a)
      ensures found == iterationNew + (Conclusions(a) - known)
      ensures shown == iterationShown + if materialize && !a.rule.silent then Conclusions(a) - materialized else {}
    {
      hide Instantiate, Permitted, Reasons, PatternVars;
      found, shown := iterationNew, iterationShown;
      ReasonsUnion(a, {}, {});
      for k := 0 to |a.rule.head|
        invariant tms.Valid() && tms.memory.facts.Keys == known + found
        invariant Stated() == old(Stated())
        invariant tms.Justified() == old(tms.Justified()) + Reasons(a, Emitted(a, k))
        invariant found == iterationNew + (Emitted(a, k) - known)
        invariant shown == iterationShown + if materialize && !a.rule.silent then Emitted(a, k) - materialized else {}
      {
        var triple := Instantiate(a.rule.head[k], a.bindings);
        if Permitted(triple) {
          ReasonsUnion(a, Emitted(a, k), {triple});
          found, shown := RunProduction(a, triple, materialize, found, shown);
        } else {
          assert Emitted(a, k + 1) == Emitted(a, k);
        }
      }
      EmittedAll(a, |a.rule.head|);
    }

    method RunProduction(a: Activation, triple: Triple, materialize: bool, iterationNew: set<Triple>,
        iterationShown: set<Triple>)
      returns (found: set<Triple>, shown: set<Triple>)
      requires tms.Valid() && tms.memory.facts.Keys == known + iterationNew
      requires forall t :: t in a.premises ==> t in known
      modifies tms.Repr()
      ensures tms.Valid() && tms.memory.facts.Keys == known + found
      ensures Stated() == old(Stated())
      ensures tms.Justified() == old(tms.Justified()) + Reasons(a, {triple})
      ensures found == iterationNew + ({triple} - known)
      ensures shown == iterationShown + if materialize && !a.rule.silent then {triple} - materialized else {}
    {
      found, shown := iterationNew, iterationShown;
      tms.RecordDerivation(triple, a.rule.id, a.premises);
      if triple !in known && triple !in found {
        found := found + {triple};
      }
      if materialize && !a.rule.silent && triple !in materialized && triple !in shown {
        shown := shown + {triple};
      }
    }

    // Add triples as stated facts; a triple that is already known is skipped
    // and keeps its status.
    method AddTriples(triples: set<Triple>) returns (shown: set<Triple>)
      requires Valid()
      modifies Repr()
      ensures Valid() && bootstrapCompleted == old(bootstrapCompleted)
      ensures forall t :: t in Stated() <==>
        t in old(Stated()) || (t in triples && !t.s.Literal? && t.p.IRI? && t !in old(known))
      ensures var added := Admitted(triples, old(known));
        && Stated() == old(Stated()) + added
        && old(known) + added <= known
        && materialized == old(materialized) + added + shown
        && shown !! old(materialized) + added
        && (added == {} ==> known == old(known) && shown == {})
        && forall t :: t in shown <==> Manifest(prog, known, hidden, t) && t !in old(materialized) + added
      ensures lingering == old(lingering) && hidden == old(hidden) && boot == old(boot)
      ensures old(Warmed()) ==> Warmed()
    {
      hide Manifest, NewlyMatched, Recorded, Shown, InstancesOver;
      var added := Admitted(triples, known);
      assert forall t :: t in added <==> t in triples && !t.s.Literal? && t.p.IRI? && t !in known;
      if added == {} {
        ShownManifest(prog, bootstrapCompleted, known, hidden, materialized);
        return {};
      }
      tms.RegisterStated(added);
      known := known + added;
      ShownGrows(prog, bootstrapCompleted, matcher.covered, hidden, materialized, materialized + added);
      materialized := materialized + added;
      MoreStatedMinimal(tms.Justified(), old(Stated()) + lingering, old(known), added);
      shown := Saturate(true, false);
    }

    // Run the zero-precondition rules once; what they yield is not shown.
    method RunBootstrapRules()
      requires Valid()
      modifies Repr()
      ensures Valid() && bootstrapCompleted && old(known) <= known
      ensures Stated() == old(Stated()) && lingering == old(lingering)
      ensures materialized == old(materialized)
      ensures old(bootstrapCompleted) ==> known == old(known) && hidden == old(hidden) && boot == old(boot)
      ensures !old(bootstrapCompleted) ==>
        && boot == known
        && forall a :: a in hidden <==> a in old(hidden) || NewlyMatched(prog, a, known, old(known))
    {
      if bootstrapCompleted {
        return;
      }
      bootstrapCompleted := true;
      var _ := Saturate(false, true);
      boot := known;
    }

    method Warmup(existing: set<Triple>) returns (shown: set<Triple>)
      requires Valid()
      modifies Repr()
      ensures Valid() && bootstrapCompleted
      ensures old(known) <= known && lingering == old(lingering)
      ensures forall t :: t in existing && Permitted(t) ==> t in known
      ensures old(Stated()) <= Stated() <= old(Stated()) + existing
      ensures old(materialized) + shown <= materialized <= old(materialized) + shown + existing
      ensures old(bootstrapCompleted) ==> hidden == old(hidden) && boot == old(boot)
      ensures !old(bootstrapCompleted) ==>
        && old(known) <= boot <= known
        && Least(prog, true, old(Stated() + lingering), boot)
        && forall a :: a in hidden <==> a in old(hidden) || NewlyMatched(prog, a, boot, old(known))
      ensures forall t :: t in shown ==> Manifest(prog, known, hidden, t)
      ensures !old(bootstrapCompleted) && old(known) == {} ==> Warmed()
    {
      hide Manifest, NewlyMatched;
      if known == {} {
        NoInstances(prog, hidden);
      }
      RunBootstrapRules();
      KnownIsLeast(this);
      assert old(known) == {} ==> old(Stated() + lingering) == {};
      shown := AddTriples(existing);
    }

    // Retract triples, visiting them in any order. Only a stated fact is
    // handed to truth maintenance. Returns everything that left working memory.
    method RetractTriples(inputs: set<Triple>) returns (cascade: set<Triple>)
      requires Valid()
      modifies Repr()
      ensures Valid() && bootstrapCompleted == old(bootstrapCompleted)
      ensures cascade <= old(known) && known == old(known) - cascade
      ensures materialized == old(materialized) - cascade
      ensures Stated() == old(Stated()) - inputs
      ensures lingering == (old(lingering) + old(Stated()) * inputs) * known
      ensures boot == old(boot) && hidden == StillMatched(old(hidden), known)
      ensures old(Warmed()) ==> Warmed()
      ensures Retracts(old(tms.Justified()), old(known), old(Stated()), inputs, cascade)
    {
      hide Removals, StillMatched;
      var order := Enumerate(inputs);
      assert SetOf(order) == inputs;
      cascade := RetractInOrder(order);
      if old(Warmed()) {
        KnownIsLeast(this);
        StillWarmed(prog, old(hidden), boot, Stated() + lingering, known);
      }
    }

    // The same for one order of the triples, which settles what is removed.
    method RetractInOrder(order: seq<Triple>) returns (cascade: set<Triple>)
      requires Valid()
      modifies Repr()
      ensures Valid() && bootstrapCompleted == old(bootstrapCompleted)
      ensures cascade <= old(known) && known == old(known) - cascade
      ensures materialized == old(materialized) - cascade
      ensures var inputs := SetOf(order);
        && Stated() == old(Stated()) - inputs
        && lingering == (old(lingering) + old(Stated()) * inputs) * known
      ensures boot == old(boot) && hidden == StillMatched(old(hidden), known)
      ensures Removals(old(tms.Justified()), old(known), old(Stated()), order, cascade)
    {
      hide Surviving, LeastSupported, SupportClosed, Recorded, Removals, Closed, Shown, InstancesOver, StillMatched;
      hide TMSController.Valid, Network.Valid;
      ghost var J, inputs := tms.Justified(), SetOf(order);
      cascade := RetractFacts(order);
      SurvivingRecorded(J, prog, bootstrapCompleted, known, cascade);
      RetractionEnds(prog, bootstrapCompleted, known, cascade, hidden, materialized);
      StillOver(prog, hidden, known, known - cascade);
      if cascade != {} {
        matcher.Evict(cascade);
      } else {
        assert known - cascade == known;
      }
      known := known - cascade;
      materialized := materialized - cascade;
      lingering := (lingering + old(Stated()) * inputs) * known;
      hidden := StillMatched(hidden, known);
    }

    // Where a retraction stands: what J supported has shrunk by the cascade.
    ghost predicate Retracting(J: set<Justification>, stated: set<Triple>, retracted: set<Triple>, cascade: set<Triple>)
      reads Repr()
    {
      && tms.Valid() && cascade <= known && tms.memory.facts.Keys == known - cascade
      && tms.Justified() == Surviving(J, cascade)
      && Stated() == stated - retracted
      && LeastSupported(tms.Justified(), Base(stated, lingering, retracted, known - cascade), known - cascade)
      && SupportClosed(J, known - cascade)
    }

    // One truth-maintenance call for each stated input.
    method RetractFacts(order: seq<Triple>) returns (cascade: set<Triple>)
      requires Valid()
      modifies tms.Repr()
      ensures Retracting(old(tms.Justified()), old(Stated()), SetOf(order), cascade)
      ensures Removals(old(tms.Justified()), known, old(Stated()), order, cascade)
    {
      hide Surviving, LeastSupported, Recorded, Removes, TMSController.Valid;
      ghost var J, stated := tms.Justified(), Stated();
      cascade := {};
      RetractionStarts(J, stated, lingering, known);
      assert SetOf(order[..0]) == {};
      assert stated - {} == stated;
      hide Retracting;
      for i := 0 to |order|
        invariant Retracting(J, stated, SetOf(order[..i]), cascade)
        invariant Removals(J, known, stated, order[..i], cascade)
      {
        assert order[..i + 1] == order[..i] + [order[i]];
        assert SetOf(order[..i + 1]) == SetOf(order[..i]) + {order[i]};
        var removed := RetractFact(order[i], J, stated, SetOf(order[..i]), cascade);
        RemovalsPlus(J, known, stated, order[..i], cascade, order[i], removed);
        cascade := cascade + removed;
      }
      assert order[..|order|] == order;
    }

    method RetractFact(t: Triple, ghost J: set<Justification>, ghost stated: set<Triple>, ghost retracted: set<Triple>,
                       ghost cascade: set<Triple>)
      returns (removed: set<Triple>)
      requires Retracting(J, stated, retracted, cascade) && lingering !! stated
      modifies tms.Repr()
      ensures Retracting(J, stated, retracted + {t}, cascade + removed)
      ensures Removes(Surviving(J, cascade), known - cascade, stated - retracted, t, removed)
    {
      hide Surviving, LeastSupported, SupportClosed, Swept;
      removed := {};
      assert stated - retracted - {t} == stated - (retracted + {t});
      if tms.memory.HasFact(t) && tms.memory.facts[t] {
        assert t in Stated();
        var outcome := tms.RetractTriple(t);
        removed := outcome.removed;
        if outcome.unstated != {} {
          FlagCleared(stated, lingering, retracted, known - cascade, t);
        } else {
          SweepStep(J, stated, lingering, retracted, known, cascade, t, removed);
        }
      } else {
        assert t !in Stated();
        NotRetracted(stated, lingering, retracted, known - cascade, t);
      }
      assert removed == {} ==> cascade + removed == cascade;
    }
  }

  lemma KnownInUniverse(prog: Program, facts: set<Triple>)
    ensures facts <= Universe(Vocabulary(prog, facts)) && HeadNodes(prog) <= Vocabulary(prog, facts)
  {
    var terms := Vocabulary(prog, facts);
    forall t | t in facts ensures t in Universe(terms) {
      assert t.s in NodesOf(t) && t.p in NodesOf(t) && t.o in NodesOf(t);
      assert t.s in terms && t.p in terms && t.o in terms;
      assert t == Triple(t.s, t.p, t.o);
    }
  }

  lemma DrainedAll(acts: set<Activation>, queue: seq<Activation>, order: seq<Entry>)
    requires forall a :: a in queue <==> a in acts
    requires exists entries :: multiset(order) == multiset(entries) && Actions(entries) == queue
    ensures forall a :: a in Actions(order) <==> a in acts
  {
    var entries :| multiset(order) == multiset(entries) && Actions(entries) == queue;
    SameActions(order, entries);
    SameActions(entries, order);
  }

  lemma SameActions(from: seq<Entry>, to: seq<Entry>)
    requires multiset(from) == multiset(to)
    ensures forall a :: a in Actions(from) ==> a in Actions(to)
  {
    forall a | a in Actions(from) ensures a in Actions(to) {
      var i :| 0 <= i < |from| && from[i].action == a;
      assert from[i] in multiset(to);
      var k :| 0 <= k < |to| && to[k] == from[i];
      assert Actions(to)[k] == a;
    }
  }

  lemma ActivationFacts(prog: Program, a: Activation, facts: set<Triple>)
    requires IsActivation(prog, true, a, facts)
    ensures forall t :: t in a.premises ==> t in facts
    ensures forall h :: h in a.rule.head ==> PatternVars(h) <= a.bindings.Keys
  {
  }

  lemma AgendaShown(prog: Program, booted: bool, booted': bool, covered: set<Triple>, facts: set<Triple>,
                    acts: seq<Activation>, bootstrapPhase: bool,
                    hidden: set<Activation>, hidden': set<Activation>, shown: set<Triple>, shown': set<Triple>)
    requires Shown(prog, booted, covered, hidden, shown) && hidden <= hidden' && shown <= shown'
    requires forall a :: a in acts <==> Reported(prog, a, facts, covered)
    requires booted' == (booted || bootstrapPhase)
    requires forall a :: a in acts && a.rule.body != [] && !a.rule.silent && a !in hidden' ==> Conclusions(a) <= shown'
    ensures Shown(prog, booted', facts, hidden', shown')
  {
    forall a | IsActivation(prog, booted', a, facts) && !a.rule.silent && a.rule.body != [] && a !in hidden'
      ensures Conclusions(a) <= shown'
    {
      if a !in acts {
        assert IsActivation(prog, booted, a, covered);
      }
    }
  }

  lemma VisibleMonotone(prog: Program, known: set<Triple>, more: set<Triple>, hidden: set<Activation>, shown: set<Triple>)
    requires Visible(prog, known, hidden, shown) && known <= more
    ensures Visible(prog, more, hidden, shown)
  {
    forall t | t in shown ensures Manifest(prog, more, hidden, t) {
      var a :| Displays(prog, known, a) && a !in hidden && t in Conclusions(a);
      ActivationMonotone(prog, true, a, known, more);
    }
  }

  lemma VisibleUnion(prog: Program, known: set<Triple>, hidden: set<Activation>, shown: set<Triple>, more: set<Triple>)
    requires Visible(prog, known, hidden, shown) && Visible(prog, known, hidden, more)
    ensures Visible(prog, known, hidden, shown + more)
  {
    hide Manifest;
  }

  lemma VisibleManifest(prog: Program, known: set<Triple>, hidden: set<Activation>, shown: set<Triple>)
    ensures Visible(prog, known, hidden, shown) <==> forall t :: t in shown ==> Manifest(prog, known, hidden, t)
  {
  }

  lemma NothingVisible(prog: Program, known: set<Triple>, hidden: set<Activation>)
    ensures Visible(prog, known, hidden, {})
  {
  }

  lemma MoreVisible(prog: Program, known: set<Triple>, hidden: set<Activation>, shown: set<Triple>,
                    a: Activation, more: set<Triple>)
    requires Visible(prog, known, hidden, shown) && IsActivation(prog, true, a, known) && more <= Conclusions(a)
    ensures a.rule.body != [] && !a.rule.silent && a !in hidden ==> Visible(prog, known, hidden, shown + more)
  {
    hide IsActivation, Conclusions;
  }

  // What is shown includes everything manifest.
  lemma ShownManifest(prog: Program, booted: bool, known: set<Triple>, hidden: set<Activation>, shown: set<Triple>)
    requires Shown(prog, booted, known, hidden, shown)
    ensures forall t :: Manifest(prog, known, hidden, t) ==> t in shown
  {
    forall t | Manifest(prog, known, hidden, t) ensures t in shown {
      var a :| Displays(prog, known, a) && a !in hidden && t in Conclusions(a);
      assert IsActivation(prog, booted, a, known);
    }
  }

  // The activations that have a condition.
  function Conditional(actions: seq<Activation>): set<Activation> {
    set a | a in actions && a.rule.body != []
  }

  lemma AgendaHidden(prog: Program, covered: set<Triple>, facts: set<Triple>, actions: seq<Activation>, hidden: set<Activation>)
    requires covered <= facts && InstancesOver(prog, hidden, covered)
    requires forall a :: a in actions <==> Reported(prog, a, facts, covered)
    ensures forall a :: a in actions ==> IsActivation(prog, true, a, facts)
    ensures forall a :: a in actions && a.rule.body != [] ==> a !in hidden
    ensures InstancesOver(prog, hidden, facts) && InstancesOver(prog, hidden + Conditional(actions), facts)
    ensures forall a :: a in hidden + Conditional(actions) <==> a in hidden || NewlyMatched(prog, a, facts, covered)
  {
    forall a | a in hidden ensures IsActivation(prog, true, a, facts) {
      ActivationMonotone(prog, true, a, covered, facts);
    }
    hide IsActivation;
  }

  lemma MatchedInSteps(prog: Program, first: set<Triple>, second: set<Triple>, third: set<Triple>)
    requires first <= second <= third
    ensures forall a :: NewlyMatched(prog, a, third, first) <==>
      NewlyMatched(prog, a, second, first) || NewlyMatched(prog, a, third, second)
  {
    forall a ensures NewlyMatched(prog, a, third, first) <==>
      NewlyMatched(prog, a, second, first) || NewlyMatched(prog, a, third, second)
    {
      if IsActivation(prog, true, a, first) {
        ActivationMonotone(prog, true, a, first, second);
      }
      if IsActivation(prog, true, a, second) {
        ActivationMonotone(prog, true, a, second, third);
      }
    }
  }

  lemma NoneMatched(prog: Program, facts: set<Triple>)
    ensures forall a :: !NewlyMatched(prog, a, facts, facts)
  {
  }

  // With no facts no condition has an instance.
  lemma NotOverNothing(prog: Program, a: Activation)
    requires a.rule.body != []
    ensures !IsActivation(prog, true, a, {})
  {
    assert |a.premises| > 0 ==> a.premises[0] in a.premises;
  }

  lemma NoInstances(prog: Program, hidden: set<Activation>)
    requires InstancesOver(prog, hidden, {})
    ensures hidden == {}
  {
    forall a: Activation | a.rule.body != [] ensures a !in hidden {
      NotOverNothing(prog, a);
    }
  }

  lemma StillOver(prog: Program, hidden: set<Activation>, known: set<Triple>, rest: set<Triple>)
    requires InstancesOver(prog, hidden, known) && rest <= known
    ensures InstancesOver(prog, StillMatched(hidden, rest), rest)
  {
  }

  // The instances all of whose premises are still known.
  ghost function StillMatched(hidden: set<Activation>, known: set<Triple>): set<Activation> {
    set a | a in hidden && forall t :: t in a.premises ==> t in known
  }

  // What the bootstrap rules alone entail is never forgotten.
  lemma StillWarmed(prog: Program, hidden: set<Activation>, boot: set<Triple>, base: set<Triple>, known: set<Triple>)
    requires Least(prog, true, {}, boot) && Least(prog, true, base, known)
    requires forall a :: a in hidden <==> NewlyMatched(prog, a, boot, {})
    ensures boot <= known && StillMatched(hidden, known) == hidden
  {
  }

  // After any sequence of calls the known triples are the least set closed
  // under the rules that contains the stated triples and the lingering ones.
  lemma KnownIsLeast(e: RETEEngine)
    requires e.Valid()
    ensures Least(e.prog, e.bootstrapCompleted, e.Stated() + e.lingering, e.known)
  {
    EngineFacts(e);
    SupportIsClosure(e.tms.Justified(), e.prog, e.bootstrapCompleted, e.Stated() + e.lingering, e.known);
  }

  // What the proofs about an engine need of it.
  lemma EngineFacts(e: RETEEngine)
    requires e.Valid()
    ensures Recorded(e.tms.Justified(), e.prog, e.bootstrapCompleted, e.known)
    ensures LeastSupported(e.tms.Justified(), e.Stated() + e.lingering, e.known)
    ensures forall j :: j in e.tms.Justified() ==> j.consequent in e.known && Grounded(j, e.known)
  {
    forall j | j in e.tms.Justified() ensures j.consequent in e.known && Grounded(j, e.known) {
      var t :| t in e.tms.justifications && j in e.tms.justifications[t];
    }
  }

  // Steps of a retraction

  // What the remaining facts rest on after some of the stated facts were
  // retracted: the other stated facts, and the retracted ones that stayed.
  function Base(stated: set<Triple>, lingering: set<Triple>, retracted: set<Triple>, facts: set<Triple>): set<Triple> {
    (stated - retracted) + (lingering + stated * retracted) * facts
  }

  lemma RetractionStarts(J: set<Justification>, stated: set<Triple>, lingering: set<Triple>, known: set<Triple>)
    requires LeastSupported(J, stated + lingering, known)
    ensures SupportClosed(J, known) && Surviving(J, {}) == J
    ensures known - {} == known && Base(stated, lingering, {}, known) == stated + lingering
  {
  }

  lemma FlagCleared(stated: set<Triple>, lingering: set<Triple>, retracted: set<Triple>, facts: set<Triple>, t: Triple)
    requires t in stated - retracted && t in facts
    ensures Base(stated, lingering, retracted + {t}, facts) == Base(stated, lingering, retracted, facts)
  {
  }

  lemma NotRetracted(stated: set<Triple>, lingering: set<Triple>, retracted: set<Triple>, facts: set<Triple>, t: Triple)
    requires t !in stated - retracted
    ensures Base(stated, lingering, retracted + {t}, facts) == Base(stated, lingering, retracted, facts)
    ensures stated - retracted == stated - (retracted + {t})
  {
  }

  lemma SweepStep(J: set<Justification>, stated: set<Triple>, lingering: set<Triple>, retracted: set<Triple>,
                  known: set<Triple>, cascade: set<Triple>, t: Triple, removed: set<Triple>)
    requires LeastSupported(Surviving(J, cascade), Base(stated, lingering, retracted, known - cascade), known - cascade)
    requires SupportClosed(J, known - cascade)
    requires lingering !! stated && t in stated - retracted
    requires Swept(Surviving(J, cascade), known - cascade, stated - retracted, t, removed)
    requires removed * (stated - retracted) == {t}
    ensures removed <= known - cascade
    ensures Surviving(Surviving(J, cascade), removed) == Surviving(J, cascade + removed)
    ensures var facts := known - (cascade + removed);
      && facts == known - cascade - removed
      && LeastSupported(Surviving(J, cascade + removed), Base(stated, lingering, retracted + {t}, facts), facts)
      && SupportClosed(J, facts)
  {
    hide Surviving;
    var before, facts := known - cascade, known - (cascade + removed);
    var base := Base(stated, lingering, retracted, before);
    SweepIsExact(Surviving(J, cascade), base, before, stated - retracted, t, removed);
    assert before - removed == facts;
    assert (base - {t}) * facts == Base(stated, lingering, retracted + {t}, facts);
    SurvivingTwice(J, cascade, removed);
    assert SupportClosed(Surviving(J, cascade), facts);
    SurvivingClosed(J, cascade, before, facts);
  }

  lemma RetractionEnds(prog: Program, booted: bool, known: set<Triple>, cascade: set<Triple>, hidden: set<Activation>,
                       shown: set<Triple>)
    requires Shown(prog, booted, known, hidden, shown) && Closed(prog, booted, known - cascade)
    ensures Shown(prog, booted, known - cascade, StillMatched(hidden, known - cascade), shown - cascade)
  {
    var rest := known - cascade;
    forall a | IsActivation(prog, booted, a, rest) && !a.rule.silent && a.rule.body != [] && a !in StillMatched(hidden, rest)
      ensures Conclusions(a) <= shown - cascade
    {
      ActivationMonotone(prog, booted, a, rest, known);
      assert a !in hidden;
    }
  }

  // Literal subjects and non-IRI predicates never enter working memory.
  ghost predicate AllPermitted(facts: set<Triple>) {
    forall t :: t in facts ==> Permitted(t)
  }

  lemma ConclusionsPermitted(a: Activation)
    ensures AllPermitted(Conclusions(a))
  {
  }

  function Admitted(triples: set<Triple>, known: set<Triple>): set<Triple> {
    set t | t in triples && Permitted(t) && t !in known
  }

  // The conclusions of the first k head patterns.
  ghost function Emitted(a: Activation, k: nat): set<Triple>
    requires k <= |a.rule.head| && forall h :: h in a.rule.head ==> PatternVars(h) <= a.bindings.Keys
  {
    if k == 0 then {}
    else
      assert a.rule.head[k - 1] in a.rule.head;
      var t := Instantiate(a.rule.head[k - 1], a.bindings);
      Emitted(a, k - 1) + if Permitted(t) then {t} else {}
  }

  lemma EmittedAll(a: Activation, k: nat)
    requires k <= |a.rule.head| && forall h :: h in a.rule.head ==> PatternVars(h) <= a.bindings.Keys
    ensures forall t :: t in Emitted(a, k) <==>
      Permitted(t) && exists i :: 0 <= i < k && Instantiate(a.rule.head[i], a.bindings) == t
    ensures Emitted(a, |a.rule.head|) == Conclusions(a)
  {
    hide Permitted;
    EmittedPrefix(a, k);
    EmittedPrefix(a, |a.rule.head|);
  }

  lemma EmittedPrefix(a: Activation, k: nat)
    requires k <= |a.rule.head| && forall h :: h in a.rule.head ==> PatternVars(h) <= a.bindings.Keys
    ensures forall t :: t in Emitted(a, k) <==>
      Permitted(t) && exists i :: 0 <= i < k && Instantiate(a.rule.head[i], a.bindings) == t
  {
    hide Permitted;
    if k > 0 {
      EmittedPrefix(a, k - 1);
    }
  }

  // The facts follow from the base by the justifications.
  ghost predicate Minimal(J: set<Justification>, base: set<Triple>, facts: set<Triple>) {
    && base <= facts
    && forall L: set<Triple> :: base <= L && SupportClosed(J, L) ==> facts <= L
  }

  lemma MoreStatedMinimal(J: set<Justification>, base: set<Triple>, facts: set<Triple>, added: set<Triple>)
    requires LeastSupported(J, base, facts)
    ensures Minimal(J, base + added, facts + added)
  {
  }

  // Recording the conclusions of one activation keeps the facts minimal.
  lemma ActionMinimal(J: set<Justification>, base: set<Triple>, facts: set<Triple>, prog: Program, a: Activation)
    requires Minimal(J, base, facts) && IsActivation(prog, true, a, facts)
    ensures Minimal(J + JustificationsOf(a), base, facts + Conclusions(a))
  {
    forall L: set<Triple> | base <= L && SupportClosed(J + JustificationsOf(a), L) ensures facts + Conclusions(a) <= L {
      assert SupportClosed(J, L);
      forall c | c in Conclusions(a) ensures c in L {
        var j := Justification(c, a.rule.id, a.premises);
        assert j in J + JustificationsOf(a) && Grounded(j, L);
      }
    }
  }

  // An activation this phase acts on: bootstrap rules run in the bootstrap
  // phase only.
  predicate Acted(a: Activation, bootstrapPhase: bool) {
    a.rule.body == [] ==> bootstrapPhase
  }

  // The justifications after an agenda has been worked off.
  lemma AgendaRecorded(J: set<Justification>, J': set<Justification>, prog: Program, booted: bool, booted': bool,
                       covered: set<Triple>, facts: set<Triple>, acts: seq<Activation>, bootstrapPhase: bool)
    requires Recorded(J, prog, booted, covered) && covered <= facts
    requires forall a :: a in acts <==> Reported(prog, a, facts, covered)
    requires forall j :: j in J' <==> j in J || exists a :: a in acts && Acted(a, bootstrapPhase) && j in JustificationsOf(a)
    requires booted' == (booted || bootstrapPhase)
    ensures Recorded(J', prog, booted', facts)
  {
    forall a, j | IsActivation(prog, booted', a, facts) && j in JustificationsOf(a) ensures j in J' {
      if a !in acts {
        assert IsActivation(prog, booted, a, covered);
      } else if !Acted(a, bootstrapPhase) {
        assert IsActivation(prog, booted, a, covered);
      }
    }
    forall j | j in J' ensures exists a :: IsActivation(prog, booted', a, facts) && j in JustificationsOf(a) {
      if j in J {
        var a :| IsActivation(prog, booted, a, covered) && j in JustificationsOf(a);
        ActivationMonotone(prog, booted, a, covered, facts);
        assert IsActivation(prog, booted', a, facts);
      } else {
        var a :| a in acts && Acted(a, bootstrapPhase) && j in JustificationsOf(a);
        assert IsActivation(prog, booted', a, facts);
      }
    }
  }
}
