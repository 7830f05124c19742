// The join network: shared alpha and beta memories and incremental matching.
module Matcher {
  import opened Rdf
  import opened Rules

  // Facts satisfying a prefix of a rule body, in join order.
  datatype PartialMatch = PartialMatch(facts: seq<Triple>, bindings: Bindings)

  // A node is identified by the conditions it has joined: one for an alpha
  // node, more for a beta node. Rules with a common prefix share its nodes.
  type NodeKey = seq<Pattern>

  ghost predicate IsMatch(key: NodeKey, m: PartialMatch, facts: set<Triple>) {
    && Substitutes(key, m.bindings, m.facts)
    && Distinct(m.facts)
    && forall t :: t in m.facts ==> t in facts
  }

  // A memory is complete for some facts when it holds exactly their matches.
  ghost predicate Holds(memory: set<PartialMatch>, key: NodeKey, facts: set<Triple>) {
    forall m :: m in memory <==> IsMatch(key, m, facts)
  }

  // The matches a set of facts has and a smaller one has not.
  ghost predicate HoldsNew(delta: set<PartialMatch>, key: NodeKey, facts: set<Triple>, covered: set<Triple>) {
    forall m :: m in delta <==> IsMatch(key, m, facts) && !IsMatch(key, m, covered)
  }

  // Alpha nodes

  function AlphaMatches(p: Pattern, facts: set<Triple>): set<PartialMatch> {
    set t | t in facts && AlphaMatch(p, t).Some? :: PartialMatch([t], AlphaMatch(p, t).value)
  }

  lemma AlphaMatchesComplete(p: Pattern, facts: set<Triple>)
    ensures Holds(AlphaMatches(p, facts), [p], facts)
  {
    forall m: PartialMatch
      ensures m in AlphaMatches(p, facts) <==> IsMatch([p], m, facts)
    {
      if |m.facts| == 1 {
        assert m.facts == [m.facts[0]];
        AlphaMatchIsSubstitution(p, m.facts[0], m.bindings);
      }
      if m in AlphaMatches(p, facts) {
        var t :| t in facts && AlphaMatch(p, t).Some? && m == PartialMatch([t], AlphaMatch(p, t).value);
        AlphaMatchIsSubstitution(p, t, m.bindings);
      }
    }
  }

  // Beta nodes

  predicate Joinable(l: PartialMatch, r: PartialMatch) {
    && (forall t :: t in r.facts ==> t !in l.facts)
    && Compatible(l.bindings, r.bindings)
  }

  function Merge(l: PartialMatch, r: PartialMatch): PartialMatch {
    PartialMatch(l.facts + r.facts, l.bindings + r.bindings)
  }

  function Join(left: set<PartialMatch>, right: set<PartialMatch>): set<PartialMatch> {
    set l, r | l in left && r in right && Joinable(l, r) :: Merge(l, r)
  }

  lemma BodyVarsSplit(key: NodeKey, p: Pattern)
    ensures BodyVars(key + [p]) == BodyVars(key) + PatternVars(p)
  {
    var body := key + [p];
    forall v | v in BodyVars(key) ensures v in BodyVars(body) {
      var i :| 0 <= i < |key| && v in PatternVars(key[i]);
      assert body[i] == key[i];
    }
    forall v | v in PatternVars(p) ensures v in BodyVars(body) {
      assert v in PatternVars(body[|key|]);
    }
  }

  lemma InstantiateRestricted(p: Pattern, b: Bindings, c: Bindings)
    requires PatternVars(p) <= b.Keys && PatternVars(p) <= c.Keys
    requires forall v :: v in PatternVars(p) ==> b[v] == c[v]
    ensures Instantiate(p, b) == Instantiate(p, c)
  {
    assert TermVars(p.s) <= PatternVars(p) && TermVars(p.p) <= PatternVars(p) && TermVars(p.o) <= PatternVars(p);
    ResolveRestricted(p.s, b, c);
    ResolveRestricted(p.p, b, c);
    ResolveRestricted(p.o, b, c);
  }

  lemma ResolveRestricted(t: PatternTerm, b: Bindings, c: Bindings)
    requires TermVars(t) <= b.Keys && TermVars(t) <= c.Keys
    requires forall v :: v in TermVars(t) ==> b[v] == c[v]
    ensures Resolve(t, b) == Resolve(t, c)
  {
  }

  lemma PatternInBody(body: seq<Pattern>, i: nat)
    requires i < |body|
    ensures PatternVars(body[i]) <= BodyVars(body)
  {
    forall v | v in PatternVars(body[i]) ensures v in BodyVars(body) {}
  }

  lemma MergeIsMatch(key: NodeKey, p: Pattern, l: PartialMatch, r: PartialMatch, facts: set<Triple>)
    requires IsMatch(key, l, facts) && IsMatch([p], r, facts) && Joinable(l, r)
    ensures IsMatch(key + [p], Merge(l, r), facts)
  {
    var body, m := key + [p], Merge(l, r);
    BodyVarsSplit(key, p);
    SingletonSubstitution(p, r.bindings, r.facts[0]);
    assert r.facts == [r.facts[0]];
    forall i | 0 <= i < |body|
      ensures PatternVars(body[i]) <= m.bindings.Keys && Instantiate(body[i], m.bindings) == m.facts[i]
    {
      PatternInBody(body, i);
      if i < |key| {
        InstantiateRestricted(key[i], l.bindings, m.bindings);
      } else {
        InstantiateRestricted(p, r.bindings, m.bindings);
      }
    }
    forall i, j | 0 <= i < j < |m.facts| ensures m.facts[i] != m.facts[j] {
      if j < |l.facts| {
        assert Distinct(l.facts);
      } else {
        assert m.facts[j] in r.facts;
      }
    }
  }

  function Restrict(b: Bindings, names: set<string>): Bindings {
    map v | v in b && v in names :: b[v]
  }

  function LeftPart(key: NodeKey, m: PartialMatch): PartialMatch
    requires |m.facts| > 0
  {
    PartialMatch(m.facts[..|m.facts| - 1], Restrict(m.bindings, BodyVars(key)))
  }

  function RightPart(p: Pattern, m: PartialMatch): PartialMatch
    requires |m.facts| > 0
  {
    PartialMatch([m.facts[|m.facts| - 1]], Restrict(m.bindings, PatternVars(p)))
  }

  lemma LeftPartIsMatch(key: NodeKey, p: Pattern, m: PartialMatch, facts: set<Triple>)
    requires IsMatch(key + [p], m, facts)
    ensures |m.facts| > 0 && IsMatch(key, LeftPart(key, m), facts)
  {
    var body, l := key + [p], LeftPart(key, m);
    BodyVarsSplit(key, p);
    assert l.bindings.Keys == BodyVars(key);
    forall i | 0 <= i < |key|
      ensures PatternVars(key[i]) <= l.bindings.Keys && Instantiate(key[i], l.bindings) == l.facts[i]
    {
      PatternInBody(key, i);
      assert body[i] == key[i];
      InstantiateRestricted(key[i], m.bindings, l.bindings);
    }
    forall t | t in l.facts ensures t in facts { assert t in m.facts; }
  }

  lemma RightPartIsMatch(key: NodeKey, p: Pattern, m: PartialMatch, facts: set<Triple>)
    requires IsMatch(key + [p], m, facts)
    ensures |m.facts| > 0 && IsMatch([p], RightPart(p, m), facts)
  {
    var body, n, r := key + [p], |key|, RightPart(p, m);
    BodyVarsSplit(key, p);
    assert body[n] == p && m.facts[n] in m.facts;
    assert r.bindings.Keys == PatternVars(p);
    InstantiateRestricted(p, m.bindings, r.bindings);
    SingletonSubstitution(p, r.bindings, m.facts[n]);
  }

  lemma MatchSplits(key: NodeKey, p: Pattern, m: PartialMatch, facts: set<Triple>)
    requires IsMatch(key + [p], m, facts)
    ensures |m.facts| > 0
    ensures IsMatch(key, LeftPart(key, m), facts) && IsMatch([p], RightPart(p, m), facts)
    ensures Joinable(LeftPart(key, m), RightPart(p, m)) && Merge(LeftPart(key, m), RightPart(p, m)) == m
  {
    hide Instantiate, BodyVars;
    LeftPartIsMatch(key, p, m, facts);
    RightPartIsMatch(key, p, m, facts);
    var l, r := LeftPart(key, m), RightPart(p, m);
    BodyVarsSplit(key, p);
    assert l.facts + r.facts == m.facts;
    assert l.bindings + r.bindings == m.bindings;
    forall t | t in r.facts ensures t !in l.facts {
      assert Distinct(m.facts);
    }
  }

  lemma JoinComplete(key: NodeKey, p: Pattern, left: set<PartialMatch>, right: set<PartialMatch>, facts: set<Triple>)
    requires Holds(left, key, facts) && Holds(right, [p], facts)
    ensures Holds(Join(left, right), key + [p], facts)
  {
    forall m: PartialMatch
      ensures m in Join(left, right) <==> IsMatch(key + [p], m, facts)
    {
      if m in Join(left, right) {
        var l, r :| l in left && r in right && Joinable(l, r) && m == Merge(l, r);
        MergeIsMatch(key, p, l, r, facts);
      }
      if IsMatch(key + [p], m, facts) {
        MatchSplits(key, p, m, facts);
        assert Merge(LeftPart(key, m), RightPart(p, m)) in Join(left, right);
      }
    }
  }

  // Joining the new left matches with the whole right memory, and the whole
  // left memory with the new right matches, adds to a complete beta memory
  // exactly what it lacks.
  lemma IncrementalJoin(
    key: NodeKey, p: Pattern, facts: set<Triple>, covered: set<Triple>,
    left: set<PartialMatch>, newLeft: set<PartialMatch>,
    right: set<PartialMatch>, newRight: set<PartialMatch>,
    memory: set<PartialMatch>)
    requires covered <= facts
    requires Holds(left, key, facts) && HoldsNew(newLeft, key, facts, covered)
    requires Holds(right, [p], facts) && HoldsNew(newRight, [p], facts, covered)
    requires Holds(memory, key + [p], covered)
    ensures var joined := Join(newLeft, right) + Join(left, newRight);
            && Holds(memory + joined, key + [p], facts)
            && HoldsNew(joined - memory, key + [p], facts, covered)
  {
    var joined := Join(newLeft, right) + Join(left, newRight);
    JoinComplete(key, p, left, right, facts);
    forall m: PartialMatch
      ensures m in joined ==> IsMatch(key + [p], m, facts)
      ensures IsMatch(key + [p], m, facts) && !IsMatch(key + [p], m, covered) ==> m in joined
    {
      if m in joined {
        assert m in Join(left, right);
      }
      if IsMatch(key + [p], m, facts) && !IsMatch(key + [p], m, covered) {
        MatchSplits(key, p, m, facts);
        var l, r := LeftPart(key, m), RightPart(p, m);
        if IsMatch(key, l, covered) && IsMatch([p], r, covered) {
          MergeIsMatch(key, p, l, r, covered);
        }
        assert Merge(l, r) in joined;
      }
    }
    forall m | IsMatch(key + [p], m, covered) ensures IsMatch(key + [p], m, facts) {}
  }

  // The network

  // The alpha and beta nodes a rule set compiles to.
  function NodeKeys(rules: seq<Rule>): set<NodeKey> {
    (set i, j | 0 <= i < |rules| && 0 <= j < |rules[i].body| :: [rules[i].body[j]]) +
    (set i, n | 0 <= i < |rules| && 1 <= n <= |rules[i].body| :: rules[i].body[..n])
  }

  lemma NodesOfRule(rules: seq<Rule>, r: Rule)
    requires r in rules
    ensures forall j :: 0 <= j < |r.body| ==> [r.body[j]] in NodeKeys(rules)
    ensures forall n :: 1 <= n <= |r.body| ==> r.body[..n] in NodeKeys(rules)
    ensures r.body != [] ==> r.body in NodeKeys(rules)
  {
    var i :| 0 <= i < |rules| && rules[i] == r;
    forall j | 0 <= j < |r.body| ensures [r.body[j]] in NodeKeys(rules) {
      assert [rules[i].body[j]] == [r.body[j]];
    }
    forall n | 1 <= n <= |r.body| ensures r.body[..n] in NodeKeys(rules) {
      assert rules[i].body[..n] == r.body[..n];
    }
    assert r.body[..|r.body|] == r.body;
  }

  lemma AllNodes(rules: seq<Rule>, keys: set<NodeKey>)
    requires forall k, j :: 0 <= k < |rules| && 0 <= j < |rules[k].body| ==> [rules[k].body[j]] in keys
    requires forall k, n :: 0 <= k < |rules| && 1 <= n <= |rules[k].body| ==> rules[k].body[..n] in keys
    ensures NodeKeys(rules) <= keys
  {
  }

  type Memory = map<NodeKey, set<PartialMatch>>

  // During a matching pass a visited node knows all matches and which of them
  // are new; the other nodes still know the matches of the covered facts.
  ghost predicate Visited(memory: Memory, delta: Memory, facts: set<Triple>, covered: set<Triple>) {
    && delta.Keys <= memory.Keys
    && covered <= facts
    && (forall key :: key in delta ==> Holds(memory[key], key, facts) && HoldsNew(delta[key], key, facts, covered))
    && (forall key :: key in memory && key !in delta ==> Holds(memory[key], key, covered))
  }

  lemma VisitNode(memory: Memory, delta: Memory, facts: set<Triple>, covered: set<Triple>,
                  key: NodeKey, all: set<PartialMatch>, added: set<PartialMatch>)
    requires Visited(memory, delta, facts, covered) && key in memory
    requires Holds(all, key, facts) && HoldsNew(added, key, facts, covered)
    ensures Visited(memory[key := all], delta[key := added], facts, covered)
  {
    hide Holds, HoldsNew;
  }

  lemma VisitAlpha(memory: Memory, delta: Memory, facts: set<Triple>, covered: set<Triple>, p: Pattern)
    requires Visited(memory, delta, facts, covered) && [p] in memory && [p] !in delta
    ensures var matches := AlphaMatches(p, facts);
            Visited(memory[[p] := memory[[p]] + matches], delta[[p] := matches - memory[[p]]], facts, covered)
  {
    hide Holds, HoldsNew;
    var matches := AlphaMatches(p, facts);
    AlphaStep(p, facts, covered, memory[[p]]);
    VisitNode(memory, delta, facts, covered, [p], memory[[p]] + matches, matches - memory[[p]]);
  }

  lemma VisitBeta(memory: Memory, delta: Memory, facts: set<Triple>, covered: set<Triple>, left: NodeKey, p: Pattern)
    requires Visited(memory, delta, facts, covered)
    requires left in delta && [p] in delta && left + [p] in memory && left + [p] !in delta
    ensures var key := left + [p];
            var joined := Join(delta[left], memory[[p]]) + Join(memory[left], delta[[p]]);
            Visited(memory[key := memory[key] + joined], delta[key := joined - memory[key]], facts, covered)
  {
    hide Holds, HoldsNew;
    var key := left + [p];
    var joined := Join(delta[left], memory[[p]]) + Join(memory[left], delta[[p]]);
    IncrementalJoin(left, p, facts, covered, memory[left], delta[left], memory[[p]], delta[[p]], memory[key]);
    VisitNode(memory, delta, facts, covered, key, memory[key] + joined, joined - memory[key]);
  }

  lemma AlphaStep(p: Pattern, facts: set<Triple>, covered: set<Triple>, memory: set<PartialMatch>)
    requires covered <= facts && Holds(memory, [p], covered)
    ensures var matches := AlphaMatches(p, facts);
            && Holds(memory + matches, [p], facts)
            && HoldsNew(matches - memory, [p], facts, covered)
  {
    AlphaMatchesComplete(p, facts);
    forall m | IsMatch([p], m, covered) ensures IsMatch([p], m, facts) {}
  }

  lemma EmptyMemory(key: NodeKey)
    requires |key| > 0
    ensures Holds({}, key, {})
  {
    forall m: PartialMatch ensures !IsMatch(key, m, {}) {
      assert |m.facts| == |key| ==> m.facts[0] in m.facts;
    }
  }

  function Retained(memory: set<PartialMatch>, removed: set<Triple>): set<PartialMatch> {
    set m | m in memory && forall t :: t in m.facts ==> t !in removed
  }

  lemma EvictedMemory(memory: set<PartialMatch>, key: NodeKey, covered: set<Triple>, removed: set<Triple>)
    requires Holds(memory, key, covered)
    ensures Holds(Retained(memory, removed), key, covered - removed)
  {
    hide Substitutes;
  }

  class Network {
    const prog: Program
    // The alpha and beta memories.
    var memory: Memory
    // The facts whose matches have all been reported.
    ghost var covered: set<Triple>

    ghost predicate Valid()
      reads this
    {
      && memory.Keys == NodeKeys(prog.rules)
      && Visited(memory, map[], covered, covered)
    }

    constructor (prog: Program)
      ensures Valid() && this.prog == prog && covered == {}
    {
      this.prog := prog;
      memory := map key | key in NodeKeys(prog.rules) :: {};
      covered := {};
      new;
      forall key | key in memory ensures Holds(memory[key], key, {}) {
        EmptyMemory(key);
      }
    }

    // One matching pass: updates every memory to the given facts and reports
    // the activations that were not reported before. A bootstrap rule has no
    // join root, so it is reported by every pass.
    method MatchTerminals(facts: set<Triple>) returns (acts: set<Activation>)
      requires Valid() && covered <= facts
      modifies this
      ensures Valid() && covered == facts
      ensures forall a :: a in acts <==> Reported(prog, a, facts, old(covered))
    {
      var delta := UpdateMemories(facts);
      acts := Schedule(facts, delta);
      covered := facts;
    }

    method Schedule(facts: set<Triple>, delta: Memory) returns (acts: set<Activation>)
      requires delta.Keys == NodeKeys(prog.rules) && covered <= facts
      requires forall key :: key in delta ==> HoldsNew(delta[key], key, facts, covered)
      ensures forall a :: a in acts <==> Reported(prog, a, facts, covered)
    {
      hide HoldsNew, Reported;
      acts := {};
      for i := 0 to |prog.rules|
        invariant forall a :: a in acts <==> a.rule in prog.rules[..i] && Reported(prog, a, facts, covered)
      {
        var r := prog.rules[i];
        NodesOfRule(prog.rules, r);
        var root :=
          if r.body != [] then delta[r.body]
          else if r.guards == [] then {PartialMatch([], map[])}
          else {};
        GuardsDefined(r, root, facts, covered);
        FireReports(prog, r, root, facts, covered);
        acts := acts + Fire(prog, r, root);
      }
      forall a | Reported(prog, a, facts, covered) ensures a.rule in prog.rules {
        ReportedRule(prog, a, facts, covered);
      }
      assert prog.rules[..|prog.rules|] == prog.rules;
    }

    // Visits the alpha nodes and then the beta nodes, each left input before
    // the joins that read it; a shared node is visited once.
    method UpdateMemories(facts: set<Triple>) returns (delta: Memory)
      requires Valid() && covered <= facts
      modifies this`memory
      ensures memory.Keys == delta.Keys == NodeKeys(prog.rules)
      ensures Visited(memory, delta, facts, covered)
    {
      hide Visited, NodeKeys;
      delta := map[];
      assert Visited(memory, delta, facts, covered) by { CoveredVisited(memory, facts, covered); }
      for i := 0 to |prog.rules|
        invariant memory.Keys == NodeKeys(prog.rules) && delta.Keys <= memory.Keys
        invariant Visited(memory, delta, facts, covered)
        invariant forall k, j :: 0 <= k < i && 0 <= j < |prog.rules[k].body| ==> [prog.rules[k].body[j]] in delta
      {
        delta := MatchAlphas(prog.rules[i], facts, delta);
      }
      for i := 0 to |prog.rules|
        invariant memory.Keys == NodeKeys(prog.rules) && delta.Keys <= memory.Keys
        invariant Visited(memory, delta, facts, covered)
        invariant forall k, j :: 0 <= k < |prog.rules| && 0 <= j < |prog.rules[k].body| ==> [prog.rules[k].body[j]] in delta
        invariant forall k, n :: 0 <= k < i && 1 <= n <= |prog.rules[k].body| ==> prog.rules[k].body[..n] in delta
      {
        delta := JoinBetas(prog.rules[i], facts, delta);
      }
      AllNodes(prog.rules, delta.Keys);
    }

    method MatchAlphas(r: Rule, facts: set<Triple>, before: Memory) returns (delta: Memory)
      requires r in prog.rules && memory.Keys == NodeKeys(prog.rules) && before.Keys <= memory.Keys
      requires Visited(memory, before, facts, covered)
      modifies this`memory
      ensures memory.Keys == old(memory.Keys) && before.Keys <= delta.Keys <= memory.Keys
      ensures Visited(memory, delta, facts, covered)
      ensures forall j :: 0 <= j < |r.body| ==> [r.body[j]] in delta
    {
      hide Visited, NodeKeys, Join;
      delta := before;
      NodesOfRule(prog.rules, r);
      for j := 0 to |r.body|
        invariant memory.Keys == old(memory.Keys) && before.Keys <= delta.Keys <= memory.Keys
        invariant Visited(memory, delta, facts, covered)
        invariant forall k :: 0 <= k < j ==> [r.body[k]] in delta
      {
        var p := r.body[j];
        if [p] !in delta {
          VisitAlpha(memory, delta, facts, covered, p);
          var matches := AlphaMatches(p, facts);
          delta := delta[[p] := matches - memory[[p]]];
          memory := memory[[p] := memory[[p]] + matches];
        }
      }
    }

    method JoinBetas(r: Rule, facts: set<Triple>, before: Memory) returns (delta: Memory)
      requires r in prog.rules && memory.Keys == NodeKeys(prog.rules) && before.Keys <= memory.Keys
      requires Visited(memory, before, facts, covered)
      requires forall j :: 0 <= j < |r.body| ==> [r.body[j]] in before
      modifies this`memory
      ensures memory.Keys == old(memory.Keys) && before.Keys <= delta.Keys <= memory.Keys
      ensures Visited(memory, delta, facts, covered)
      ensures forall n :: 1 <= n <= |r.body| ==> r.body[..n] in delta
    {
      hide Visited, NodeKeys, Join;
      delta := before;
      NodesOfRule(prog.rules, r);
      for n := 0 to |r.body|
        invariant memory.Keys == old(memory.Keys) && before.Keys <= delta.Keys <= memory.Keys
        invariant Visited(memory, delta, facts, covered)
        invariant forall k :: 1 <= k <= n ==> r.body[..k] in delta
      {
        var left, p := r.body[..n], r.body[n];
        var key := left + [p];
        assert key == r.body[..n + 1];
        assert n == 0 ==> key == [p];
        if key !in delta {
          VisitBeta(memory, delta, facts, covered, left, p);
          var joined := Join(delta[left], memory[[p]]) + Join(memory[left], delta[[p]]);
          delta := delta[key := joined - memory[key]];
          memory := memory[key := memory[key] + joined];
        }
      }
    }

    // Drop every partial match that refers to a removed fact.
    method Evict(removed: set<Triple>)
      requires Valid()
      modifies this
      ensures Valid() && covered == old(covered) - removed
    {
      hide Holds, Retained;
      forall key | key in memory
        ensures Holds(Retained(memory[key], removed), key, covered - removed)
      {
        EvictedMemory(memory[key], key, covered, removed);
      }
      memory := map key | key in memory :: Retained(memory[key], removed);
      covered := covered - removed;
    }
  }

  lemma CoveredVisited(memory: Memory, facts: set<Triple>, covered: set<Triple>)
    requires Visited(memory, map[], covered, covered) && covered <= facts
    ensures Visited(memory, map[], facts, covered)
  {
  }

  // The activations a matching pass over the facts reports, when the covered
  // facts have been reported before.
  ghost predicate Reported(prog: Program, a: Activation, facts: set<Triple>, covered: set<Triple>) {
    && IsActivation(prog, true, a, facts)
    && (a.rule.body == [] || !IsActivation(prog, true, a, covered))
  }

  lemma ReportedRule(prog: Program, a: Activation, facts: set<Triple>, covered: set<Triple>)
    requires Reported(prog, a, facts, covered)
    ensures a.rule in prog.rules
  {
  }

  function Fire(prog: Program, r: Rule, root: set<PartialMatch>): set<Activation>
    requires forall m, g :: m in root && g in r.guards ==> ArgVars(g.args) <= m.bindings.Keys
  {
    set m | m in root && GuardsPass(prog.hooks, r.guards, m.bindings) :: Activation(r, m.facts, m.bindings)
  }

  lemma GuardsDefined(r: Rule, root: set<PartialMatch>, facts: set<Triple>, covered: set<Triple>)
    requires WellFormed(r)
    requires r.body != [] ==> HoldsNew(root, r.body, facts, covered)
    requires r.body == [] && r.guards != [] ==> root == {}
    ensures forall m, g :: m in root && g in r.guards ==> ArgVars(g.args) <= m.bindings.Keys
  {
    forall m, g | m in root && g in r.guards
      ensures ArgVars(g.args) <= m.bindings.Keys
    {
      assert IsMatch(r.body, m, facts);
    }
  }

  lemma FireReports(prog: Program, r: Rule, root: set<PartialMatch>, facts: set<Triple>, covered: set<Triple>)
    requires r in prog.rules && covered <= facts
    requires r.body != [] ==> HoldsNew(root, r.body, facts, covered)
    requires r.body == [] ==> root == if r.guards == [] then {PartialMatch([], map[])} else {}
    requires forall m, g :: m in root && g in r.guards ==> ArgVars(g.args) <= m.bindings.Keys
    ensures forall a :: a in Fire(prog, r, root) <==> a.rule == r && Reported(prog, a, facts, covered)
  {
    forall a: Activation
      ensures a in Fire(prog, r, root) <==> a.rule == r && Reported(prog, a, facts, covered)
    {
      if a.rule == r {
        var m := PartialMatch(a.premises, a.bindings);
        if r.body == [] {
          BootstrapRoot(prog, a, facts);
        } else {
          assert m in root <==> IsMatch(r.body, m, facts) && !IsMatch(r.body, m, covered);
        }
        assert a in Fire(prog, r, root) <==> m in root && GuardsPass(prog.hooks, r.guards, m.bindings);
      }
    }
  }

  lemma BootstrapRoot(prog: Program, a: Activation, facts: set<Triple>)
    requires a.rule in prog.rules && a.rule.body == []
    ensures IsActivation(prog, true, a, facts) <==>
      a.rule.guards == [] && a.premises == [] && a.bindings == map[]
  {
    assert BodyVars([]) == {};
  }
}
