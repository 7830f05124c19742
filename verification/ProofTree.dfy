// Proof trees rebuilt from derivation records, which may be cyclic.
module ProofTree {
  import opened Rdf

  // A triple claimed in a context.
  datatype Fact = Fact(context: Node, triple: Triple)

  // The trace of one fired rule.
  datatype Record = Record(
    context: Node,
    conclusions: seq<Fact>,
    premises: seq<Fact>,
    ruleId: string,
    depth: Option<nat>,
    silent: bool)

  datatype Proof =
    | Leaf(claim: Fact)
    | Application(conclusions: seq<Fact>, premises: seq<Proof>, derivation: Record)

  datatype Verdict = Proved | Incomplete

  // Choosing a record

  predicate Matches(goal: Fact, r: Record) {
    r.context == goal.context && goal in r.conclusions && !r.silent
  }

  function MatchingRecords(goal: Fact, records: seq<Record>): (matches: seq<Record>)
    ensures forall r :: r in matches <==> r in records && Matches(goal, r)
  {
    if records == [] then []
    else (if Matches(goal, records[0]) then [records[0]] else []) + MatchingRecords(goal, records[1..])
  }

  // A record without a depth counts as very deep.
  const NO_DEPTH := 1_000_000_000

  function Depth(r: Record): nat {
    if r.depth.Some? then r.depth.value else NO_DEPTH
  }

  // Shallower first, then fewer premises, then fewer conclusions.
  predicate Before(a: Record, b: Record) {
    || Depth(a) < Depth(b)
    || (Depth(a) == Depth(b) && |a.premises| < |b.premises|)
    || (Depth(a) == Depth(b) && |a.premises| == |b.premises| && |a.conclusions| < |b.conclusions|)
  }

  // The first of the records that no other one precedes.
  function Chosen(matches: seq<Record>): (r: Record)
    requires matches != []
    ensures r in matches && forall m :: m in matches ==> !Before(m, r)
  {
    if |matches| == 1 then matches[0]
    else
      var best := Chosen(matches[..|matches| - 1]);
      var last := matches[|matches| - 1];
      assert matches == matches[..|matches| - 1] + [last];
      if Before(last, best) then last else best
  }

  // Among equally good records the one that came first is chosen.
  lemma {:induction false} ChosenIsFirst(matches: seq<Record>) returns (i: nat)
    requires matches != []
    ensures i < |matches| && matches[i] == Chosen(matches)
    ensures forall k :: 0 <= k < i ==> Before(Chosen(matches), matches[k])
  {
    i := 0;
    if |matches| > 1 {
      var init := matches[..|matches| - 1];
      i := ChosenIsFirst(init);
      assert forall k :: 0 <= k < |init| ==> matches[k] in init;
      if Before(matches[|matches| - 1], Chosen(init)) {
        i := |matches| - 1;
      }
    }
  }

  // Building

  function Concluded(records: seq<Record>): set<Fact> {
    set r, c | r in records && c in r.conclusions :: c
  }

  // A goal on the path to itself, or without a record, is a leaf.
  function Build(goal: Fact, records: seq<Record>, seen: set<Fact>): Proof
    decreases |Concluded(records) - seen|
  {
    var matches := MatchingRecords(goal, records);
    if goal in seen || matches == [] then Leaf(goal)
    else
      var r := Chosen(matches);
      assert goal in Concluded(records) - seen;
      Smaller(Concluded(records), seen, goal);
      var premises := seq(|r.premises|, i requires 0 <= i < |r.premises| => Build(r.premises[i], records, seen + {goal}));
      Application(r.conclusions, premises, r)
  }

  lemma Smaller(all: set<Fact>, seen: set<Fact>, goal: Fact)
    requires goal in all - seen
    ensures |all - (seen + {goal})| < |all - seen|
  {
    assert all - seen == (all - (seen + {goal})) + {goal};
  }

  function Reconstruct(goal: Fact, records: seq<Record>): (Proof, Verdict) {
    var proof := Build(goal, records, {});
    (proof, if proof.Application? then Proved else Incomplete)
  }

  // What a tree says

  // Every step is a record that concludes its goal, with the proofs of the
  // record's premises in their order.
  ghost predicate Proves(p: Proof, goal: Fact, records: seq<Record>) {
    match p
    case Leaf(claim) => claim == goal
    case Application(conclusions, premises, r) =>
      && r in records && Matches(goal, r) && conclusions == r.conclusions
      && |premises| == |r.premises|
      && forall i :: 0 <= i < |premises| ==> Proves(premises[i], r.premises[i], records)
  }

  // No goal is proved by a step on the way down to a step for the same goal.
  ghost predicate NoRepeat(p: Proof, goal: Fact, above: set<Fact>) {
    p.Application? ==>
      && goal !in above && |p.premises| == |p.derivation.premises|
      && forall i :: 0 <= i < |p.premises| ==> NoRepeat(p.premises[i], p.derivation.premises[i], above + {goal})
  }

  // A goal is a leaf for one of two reasons.
  ghost predicate LeavesExplained(p: Proof, goal: Fact, records: seq<Record>, above: set<Fact>) {
    if p.Leaf? then goal in above || MatchingRecords(goal, records) == []
    else
      && |p.premises| == |p.derivation.premises|
      && forall i :: 0 <= i < |p.premises| ==>
          LeavesExplained(p.premises[i], p.derivation.premises[i], records, above + {goal})
  }

  lemma {:induction false} BuildIsProof(goal: Fact, records: seq<Record>, seen: set<Fact>)
    ensures Proves(Build(goal, records, seen), goal, records)
    ensures NoRepeat(Build(goal, records, seen), goal, seen)
    ensures LeavesExplained(Build(goal, records, seen), goal, records, seen)
    decreases |Concluded(records) - seen|
  {
    var matches := MatchingRecords(goal, records);
    if goal !in seen && matches != [] {
      var r := Chosen(matches);
      assert goal in Concluded(records) - seen;
      Smaller(Concluded(records), seen, goal);
      forall i | 0 <= i < |r.premises|
        ensures Proves(Build(r.premises[i], records, seen + {goal}), r.premises[i], records)
        ensures NoRepeat(Build(r.premises[i], records, seen + {goal}), r.premises[i], seen + {goal})
        ensures LeavesExplained(Build(r.premises[i], records, seen + {goal}), r.premises[i], records, seen + {goal})
      {
        BuildIsProof(r.premises[i], records, seen + {goal});
      }
    }
  }

  // The verdict says no more than that some record concludes the goal.
  lemma ProvedIffRecorded(goal: Fact, records: seq<Record>)
    ensures Reconstruct(goal, records).1 == Proved <==>
      exists r :: r in records && r.context == goal.context && goal in r.conclusions && !r.silent
  {
    var matches := MatchingRecords(goal, records);
    if matches != [] {
      assert Chosen(matches) in matches;
    }
    if r :| r in records && r.context == goal.context && goal in r.conclusions && !r.silent {
      assert r in matches;
    }
  }

  // Which record a step uses

  // The record at k, if it concludes the goal, is deeper than the one at i, or
  // as deep with more premises, or equal in both with more conclusions, or
  // equal in all three and later.
  ghost predicate StaysBehind(goal: Fact, records: seq<Record>, i: nat, k: nat)
    requires i < |records| && k < |records|
  {
    var r, m := records[i], records[k];
    var d := if r.depth == None then 1_000_000_000 else r.depth.value;
    var e := if m.depth == None then 1_000_000_000 else m.depth.value;
    m.context == goal.context && goal in m.conclusions && !m.silent ==>
      || d < e
      || (d == e && |r.premises| < |m.premises|)
      || (d == e && |r.premises| == |m.premises| && |r.conclusions| < |m.conclusions|)
      || (d == e && |r.premises| == |m.premises| && |r.conclusions| == |m.conclusions| && i <= k)
  }

  ghost predicate IsBest(goal: Fact, records: seq<Record>, r: Record, i: nat) {
    && i < |records| && records[i] == r
    && r.context == goal.context && goal in r.conclusions && !r.silent
    && forall k :: 0 <= k < |records| ==> StaysBehind(goal, records, i, k)
  }

  // Every step of the tree uses the best record for its goal.
  ghost predicate StepsAreBest(p: Proof, goal: Fact, records: seq<Record>) {
    p.Application? ==>
      && (exists i :: IsBest(goal, records, p.derivation, i))
      && |p.premises| == |p.derivation.premises|
      && forall i :: 0 <= i < |p.premises| ==> StepsAreBest(p.premises[i], p.derivation.premises[i], records)
  }

  // The matches stand in the order of the records.
  lemma {:induction false} MatchAt(goal: Fact, records: seq<Record>, i: nat) returns (k: nat)
    requires i < |MatchingRecords(goal, records)|
    ensures k < |records| && records[k] == MatchingRecords(goal, records)[i]
    ensures forall j :: 0 <= j < k && Matches(goal, records[j]) ==> records[j] in MatchingRecords(goal, records)[..i]
  {
    var rest := records[1..];
    var here := if Matches(goal, records[0]) then [records[0]] else [];
    var matches := MatchingRecords(goal, records);
    assert matches == here + MatchingRecords(goal, rest);
    if !Matches(goal, records[0]) {
      k := MatchAt(goal, rest, i);
      k := k + 1;
    } else if i == 0 {
      k := 0;
    } else {
      k := MatchAt(goal, rest, i - 1);
      k := k + 1;
    }
    if k > 0 {
      assert matches[..i] == here + MatchingRecords(goal, rest)[..i - |here|];
      forall j | 0 <= j < k && Matches(goal, records[j]) ensures records[j] in matches[..i] {
        if j > 0 {
          assert records[j] == rest[j - 1] && rest[j - 1] in MatchingRecords(goal, rest)[..i - |here|];
        }
      }
    }
  }

  lemma ChosenIsBest(goal: Fact, records: seq<Record>)
    requires MatchingRecords(goal, records) != []
    ensures exists i :: IsBest(goal, records, Chosen(MatchingRecords(goal, records)), i)
  {
    var matches := MatchingRecords(goal, records);
    var r := Chosen(matches);
    var first := ChosenIsFirst(matches);
    var i := MatchAt(goal, records, first);
    assert r in matches;
    hide MatchingRecords, Chosen;
    forall k | 0 <= k < |records| ensures StaysBehind(goal, records, i, k) {
      if Matches(goal, records[k]) {
        assert records[k] in matches;
        if k < i {
          var j :| 0 <= j < first && matches[..first][j] == records[k];
          assert Before(r, matches[j]);
        }
      }
    }
    assert IsBest(goal, records, r, i);
  }

  lemma {:induction false} BuildUsesBest(goal: Fact, records: seq<Record>, seen: set<Fact>)
    ensures StepsAreBest(Build(goal, records, seen), goal, records)
    decreases |Concluded(records) - seen|
  {
    var matches := MatchingRecords(goal, records);
    if goal !in seen && matches != [] {
      var r := Chosen(matches);
      ChosenIsBest(goal, records);
      assert goal in Concluded(records) - seen;
      Smaller(Concluded(records), seen, goal);
      hide IsBest;
      forall i | 0 <= i < |r.premises|
        ensures StepsAreBest(Build(r.premises[i], records, seen + {goal}), r.premises[i], records)
      {
        BuildUsesBest(r.premises[i], records, seen + {goal});
      }
    }
  }

  // The tree that is handed out: its root and every step below it.
  lemma ReconstructUsesBest(goal: Fact, records: seq<Record>)
    ensures StepsAreBest(Reconstruct(goal, records).0, goal, records)
    ensures Reconstruct(goal, records).1 == Proved <==> Reconstruct(goal, records).0.Application?
  {
    BuildUsesBest(goal, records, {});
  }

  // When the records have depths that fall

  // Every premise that some record concludes has a shallower one.
  ghost predicate Layered(records: seq<Record>) {
    forall r, f :: r in records && !r.silent && f in r.premises && MatchingRecords(f, records) != [] ==>
      exists m :: m in MatchingRecords(f, records) && Depth(m) < Depth(r)
  }

  function GoalDepth(goal: Fact, records: seq<Record>): nat
    requires MatchingRecords(goal, records) != []
  {
    Depth(Chosen(MatchingRecords(goal, records)))
  }

  // All leaves of the tree are facts that no record concludes.
  ghost predicate Grounded(p: Proof, records: seq<Record>) {
    match p
    case Leaf(claim) => MatchingRecords(claim, records) == []
    case Application(_, premises, _) => forall i :: 0 <= i < |premises| ==> Grounded(premises[i], records)
  }

  // Then no goal is cut.
  lemma {:induction false} LayeredIsGrounded(goal: Fact, records: seq<Record>, seen: set<Fact>)
    requires Layered(records)
    requires forall s :: s in seen ==> MatchingRecords(s, records) != []
    requires MatchingRecords(goal, records) != [] ==>
      forall s :: s in seen ==> GoalDepth(goal, records) < GoalDepth(s, records)
    ensures Grounded(Build(goal, records, seen), records)
    decreases |Concluded(records) - seen|
  {
    var matches := MatchingRecords(goal, records);
    if matches != [] {
      var r := Chosen(matches);
      assert goal !in seen;
      assert goal in Concluded(records) - seen;
      Smaller(Concluded(records), seen, goal);
      forall i | 0 <= i < |r.premises| ensures Grounded(Build(r.premises[i], records, seen + {goal}), records) {
        if MatchingRecords(r.premises[i], records) != [] {
          var m :| m in MatchingRecords(r.premises[i], records) && Depth(m) < Depth(r);
          assert !Before(m, Chosen(MatchingRecords(r.premises[i], records)));
        }
        LayeredIsGrounded(r.premises[i], records, seen + {goal});
      }
    } else {
      assert Build(goal, records, seen) == Leaf(goal);
    }
  }

  // When no goal comes back to itself

  // Proving the first goal leads on to the second.
  ghost predicate LeadsTo(f: Fact, g: Fact, records: seq<Record>) {
    MatchingRecords(f, records) != [] && g in Chosen(MatchingRecords(f, records)).premises
  }

  ghost predicate Trail(trail: seq<Fact>, records: seq<Record>) {
    trail != [] && forall i :: 0 <= i < |trail| - 1 ==> LeadsTo(trail[i], trail[i + 1], records)
  }

  // Proving the first goal leads to the second in one or more steps.
  ghost predicate Reaches(f: Fact, g: Fact, records: seq<Record>) {
    exists trail :: Trail(trail, records) && |trail| > 1 && trail[0] == f && trail[|trail| - 1] == g
  }

  // The goal, or one it leads to, leads back to itself.
  ghost predicate Circular(goal: Fact, records: seq<Record>) {
    exists g :: (g == goal || Reaches(goal, g, records)) && Reaches(g, g, records)
  }

  // The trail ends at a goal that is open already, or that it has passed.
  ghost predicate Closes(trail: seq<Fact>, seen: set<Fact>, records: seq<Record>) {
    && Trail(trail, records)
    && var last := trail[|trail| - 1];
      MatchingRecords(last, records) != [] && (last in seen || last in trail[..|trail| - 1])
  }

  lemma {:induction false} ClosingIsCut(trail: seq<Fact>, records: seq<Record>, seen: set<Fact>)
    requires Closes(trail, seen, records)
    ensures !Grounded(Build(trail[0], records, seen), records)
    decreases |trail|
  {
    var goal := trail[0];
    assert MatchingRecords(goal, records) != [] by {
      assert |trail| > 1 ==> LeadsTo(trail[0], trail[1], records);
    }
    if goal !in seen {
      var rest := trail[1..];
      assert forall i :: 0 <= i < |rest| ==> rest[i] == trail[i + 1];
      assert trail[..|trail| - 1] == [goal] + rest[..|rest| - 1];
      ClosingIsCut(rest, records, seen + {goal});
      assert LeadsTo(goal, rest[0], records);
      var r := Chosen(MatchingRecords(goal, records));
      var i :| 0 <= i < |r.premises| && r.premises[i] == rest[0];
      assert Build(goal, records, seen).premises[i] == Build(rest[0], records, seen + {goal});
    }
  }

  // A cut below a goal is a cut below one of its premises.
  lemma CutBelow(goal: Fact, records: seq<Record>, seen: set<Fact>) returns (next: Fact)
    requires goal !in seen && MatchingRecords(goal, records) != []
    requires !Grounded(Build(goal, records, seen), records)
    ensures LeadsTo(goal, next, records) && !Grounded(Build(next, records, seen + {goal}), records)
  {
    var r := Chosen(MatchingRecords(goal, records));
    hide Chosen, MatchingRecords;
    var i :| 0 <= i < |r.premises| && !Grounded(Build(r.premises[i], records, seen + {goal}), records);
    next := r.premises[i];
  }

  lemma Extended(goal: Fact, rest: seq<Fact>, seen: set<Fact>, records: seq<Record>)
    requires Closes(rest, seen + {goal}, records) && LeadsTo(goal, rest[0], records)
    ensures Closes([goal] + rest, seen, records)
  {
    hide LeadsTo, MatchingRecords;
    var trail := [goal] + rest;
    assert forall k :: 1 <= k < |trail| - 1 ==> LeadsTo(rest[k - 1], rest[k], records);
    assert trail[..|trail| - 1] == [goal] + rest[..|rest| - 1];
  }

  lemma {:induction false} CutCloses(goal: Fact, records: seq<Record>, seen: set<Fact>) returns (trail: seq<Fact>)
    requires !Grounded(Build(goal, records, seen), records)
    ensures Closes(trail, seen, records) && trail[0] == goal
    decreases |Concluded(records) - seen|
  {
    if goal in seen || MatchingRecords(goal, records) == [] {
      assert Build(goal, records, seen) == Leaf(goal);
      trail := [goal];
    } else {
      var next := CutBelow(goal, records, seen);
      assert Chosen(MatchingRecords(goal, records)) in MatchingRecords(goal, records);
      assert goal in Concluded(records) - seen;
      Smaller(Concluded(records), seen, goal);
      hide Build, Grounded, LeadsTo, Closes;
      var rest := CutCloses(next, records, seen + {goal});
      Extended(goal, rest, seen, records);
      trail := [goal] + rest;
    }
  }

  lemma Joined(a: seq<Fact>, b: seq<Fact>, records: seq<Record>)
    requires Trail(a, records) && Trail(b, records) && a[|a| - 1] == b[0]
    ensures Trail(a + b[1..], records)
  {
    hide LeadsTo;
    var both := a + b[1..];
    forall i | 0 <= i < |both| - 1 ensures LeadsTo(both[i], both[i + 1], records) {
      if i >= |a| - 1 {
        assert LeadsTo(b[i - |a| + 1], b[i - |a| + 2], records);
      }
    }
  }

  lemma ClosingIsCircular(trail: seq<Fact>, records: seq<Record>)
    requires Closes(trail, {}, records)
    ensures Circular(trail[0], records)
  {
    hide LeadsTo, MatchingRecords;
    var last := trail[|trail| - 1];
    var k :| 0 <= k < |trail| - 1 && trail[k] == last;
    var back, there := trail[k..], trail[..k + 1];
    assert Trail(back, records) && |back| > 1 && back[0] == back[|back| - 1] == last;
    assert Trail(there, records) && there[0] == trail[0] && there[|there| - 1] == last;
    assert Reaches(last, last, records);
    if k > 0 {
      assert Reaches(trail[0], last, records);
    }
  }

  lemma ReachesBack(g: Fact, records: seq<Record>) returns (back: seq<Fact>)
    requires Reaches(g, g, records)
    ensures Trail(back, records) && |back| > 1 && back[0] == back[|back| - 1] == g
    ensures MatchingRecords(g, records) != []
  {
    back :| Trail(back, records) && |back| > 1 && back[0] == g && back[|back| - 1] == g;
    assert LeadsTo(back[0], back[1], records);
  }

  lemma CircularCloses(goal: Fact, records: seq<Record>) returns (trail: seq<Fact>)
    requires Circular(goal, records)
    ensures Closes(trail, {}, records) && trail[0] == goal
  {
    hide LeadsTo, MatchingRecords;
    var g :| (g == goal || Reaches(goal, g, records)) && Reaches(g, g, records);
    var back := ReachesBack(g, records);
    var there := [g];
    if g != goal {
      there :| Trail(there, records) && |there| > 1 && there[0] == goal && there[|there| - 1] == g;
    }
    Joined(there, back, records);
    trail := there + back[1..];
    assert trail[|there| - 1] == g && trail[|trail| - 1] == g;
    assert trail[..|trail| - 1][|there| - 1] == g;
  }

  // Exactly when the tree is not cut anywhere: no goal that the proof leads to
  // leads back to itself.
  lemma GroundedIffAcyclic(goal: Fact, records: seq<Record>)
    ensures Grounded(Build(goal, records, {}), records) <==> !Circular(goal, records)
  {
    hide Build, Grounded, Circular;
    if !Grounded(Build(goal, records, {}), records) {
      var trail := CutCloses(goal, records, {});
      ClosingIsCircular(trail, records);
    }
    if Circular(goal, records) {
      var trail := CircularCloses(goal, records);
      ClosingIsCut(trail, records, {});
    }
  }

  // Soundness

  // The facts contain what the records conclude from facts in them.
  ghost predicate RecordClosed(facts: iset<Fact>, records: seq<Record>) {
    forall r, c :: r in records && (forall f :: f in r.premises ==> f in facts) && c in r.conclusions ==> c in facts
  }

  function Leaves(p: Proof): set<Fact> {
    match p
    case Leaf(claim) => {claim}
    case Application(_, premises, _) => set i, f | 0 <= i < |premises| && f in Leaves(premises[i]) :: f
  }

  // A tree proves its goal from its leaves.
  lemma {:induction false} TreeIsSound(p: Proof, goal: Fact, records: seq<Record>, facts: iset<Fact>)
    requires Proves(p, goal, records) && RecordClosed(facts, records)
    requires forall f :: f in Leaves(p) ==> f in facts
    ensures goal in facts
  {
    if p.Application? {
      var r := p.derivation;
      forall f | f in r.premises ensures f in facts {
        var i :| 0 <= i < |r.premises| && r.premises[i] == f;
        TreeIsSound(p.premises[i], f, records, facts);
      }
    }
  }

  ghost predicate LeavesUnconcluded(p: Proof, records: seq<Record>) {
    forall f :: f in Leaves(p) ==> MatchingRecords(f, records) == []
  }

  lemma {:induction false} GroundedLeaves(p: Proof, records: seq<Record>)
    ensures Grounded(p, records) <==> LeavesUnconcluded(p, records)
  {
    hide MatchingRecords;
    match p {
      case Leaf(claim) =>
        assert claim in Leaves(p);
      case Application(_, premises, _) =>
        forall i | 0 <= i < |premises|
          ensures Grounded(premises[i], records) <==> LeavesUnconcluded(premises[i], records)
        {
          GroundedLeaves(premises[i], records);
        }
        PremiseLeaves(p, records);
        hide LeavesUnconcluded;
    }
  }

  lemma PremiseLeaves(p: Proof, records: seq<Record>)
    requires p.Application?
    ensures LeavesUnconcluded(p, records) <==>
      forall i :: 0 <= i < |p.premises| ==> LeavesUnconcluded(p.premises[i], records)
  {
    hide MatchingRecords;
    forall i, f | 0 <= i < |p.premises| && f in Leaves(p.premises[i]) ensures f in Leaves(p) {}
  }

  // When the verdict can be trusted: a proved goal follows by the records from
  // the leaves of its tree, and exactly when no goal leads back to itself no
  // record concludes any of them.
  lemma ProvedFollows(goal: Fact, records: seq<Record>, facts: iset<Fact>)
    requires RecordClosed(facts, records)
    requires forall f :: f in Leaves(Reconstruct(goal, records).0) ==> f in facts
    ensures goal in facts
    ensures !Circular(goal, records) <==> LeavesUnconcluded(Reconstruct(goal, records).0, records)
  {
    hide Circular, RecordClosed;
    BuildIsProof(goal, records, {});
    GroundedIffAcyclic(goal, records);
    GroundedLeaves(Build(goal, records, {}), records);
    TreeIsSound(Build(goal, records, {}), goal, records, facts);
  }

  // Depths that fall are one way to get there.
  lemma LayeredIsAcyclic(goal: Fact, records: seq<Record>)
    requires Layered(records)
    ensures !Circular(goal, records)
  {
    hide Circular, Layered;
    LayeredIsGrounded(goal, records, {});
    GroundedIffAcyclic(goal, records);
  }

  // Otherwise it cannot: two records that conclude each other make both
  // facts proved, though neither follows from anything.
  lemma CyclicRecordsAreProved(c: Node, s: Triple, t: Triple)
    requires s != t
    ensures var a, b := Fact(c, s), Fact(c, t);
      var records := [Record(c, [b], [a], "r", Some(1), false), Record(c, [a], [b], "r", Some(1), false)];
      && Reconstruct(a, records).1 == Proved && Leaves(Reconstruct(a, records).0) == {a}
      && RecordClosed(iset{}, records) && Circular(a, records)
  {
    var a, b := Fact(c, s), Fact(c, t);
    var ra, rb := Record(c, [a], [b], "r", Some(1), false), Record(c, [b], [a], "r", Some(1), false);
    var records := [rb, ra];
    assert MatchingRecords(a, records) == [ra] by { assert MatchingRecords(a, records[1..]) == [ra]; }
    assert MatchingRecords(b, records) == [rb] by { assert MatchingRecords(b, records[1..]) == []; }
    var inner := Build(b, records, {} + {a});
    assert Build(a, records, {a} + {b}) == Leaf(a);
    assert {} + {a} + {b} == {a} + {b};
    assert inner.Application? && inner.premises == [Leaf(a)];
    var outer := Build(a, records, {});
    assert outer.premises == [inner];
    assert Leaves(inner) == {a} by { assert Leaves(inner.premises[0]) == {a}; }
    assert Leaves(outer) == {a} by { assert Leaves(outer.premises[0]) == {a}; }
    assert !Grounded(outer, records) by { GroundedLeaves(outer, records); }
    GroundedIffAcyclic(a, records);
    hide Circular;
    assert forall r :: r in records ==> r.premises[0] in r.premises;
  }
}
