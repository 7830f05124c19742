// What the continuation guard answers to a turn, told by the turn and the call
// on record, and when a run in normal mode is stopped.
module GuardRuns {
  import opened Rdf
  import opened Guard

  // Kinds of turns

  // A turn with a call that cannot be parsed.
  predicate Malformed(t: Turn) {
    t.present && t.invalidCalls
  }

  // A turn whose only call has just been rejected with the same arguments.
  predicate Retry(t: Turn, call: Call) {
    && t.present && t.calls && !t.invalidCalls && t.single == Some(call)
    && t.rejected.Some? && t.rejected.value.signature == call.signature
  }

  predicate IsRetry(t: Turn) {
    t.single.Some? && Retry(t, t.single.value)
  }

  // The call has been retried twice already.
  predicate Exhausted(st: GuardState, signature: string) {
    st.signature == Some(signature) && st.rejectedRounds >= 2
  }

  predicate LastRetry(st: GuardState, t: Turn) {
    IsRetry(t) && Exhausted(st, t.single.value.signature)
  }

  predicate Prose(t: Turn) {
    t.present && !t.calls && !t.invalidCalls && !t.text.empty
  }

  // The announcement of an answer that stands in the message before.
  predicate Announces(t: Turn) {
    Prose(t) && t.text.preamble && t.afterSerialization && t.recoverable
  }

  // Unfinished prose after a failed tool call, for the first time.
  predicate Stalled(t: Turn) {
    Prose(t) && !Announces(t) && !t.text.completed && t.text.recovery && t.recentError && Recovery !in t.reminded
  }

  // A plan without a call, unless the final answer has been asked for already.
  predicate Plans(t: Turn) {
    Prose(t) && !Announces(t) && !t.text.completed && !t.text.recovery && t.text.plan && Finalize !in t.reminded
  }

  // The answer to one turn

  // In normal mode the hook ends the run at the last retry and where it can
  // answer itself, and goes on unless the turn is one of those it re-prompts.
  lemma NormalOutcome(st: GuardState, t: Turn)
    requires st.mode == Normal
    ensures var outcome := AfterModel(st, t).outcome;
      && (outcome == End <==> LastRetry(st, t) || Announces(t))
      && (outcome.Reprompt? <==> Malformed(t) || (IsRetry(t) && !LastRetry(st, t)) || Stalled(t) || Plans(t))
      && (outcome.Reprompt? ==> (outcome.turnRemoved <==> Malformed(t) || IsRetry(t)))
  {
  }

  // Which reminder goes with it: none that is there already; where the turn is
  // removed behind a tool message, not as a user message.
  lemma NormalReminder(st: GuardState, t: Turn, given: Reminder)
    requires st.mode == Normal && AfterModel(st, t).outcome.Reprompt?
    ensures var delivery := AfterModel(st, t).outcome.delivery;
      && (delivery == AsSystem(given) <==>
          (Malformed(t) || IsRetry(t)) && t.afterTool && Wanted(t, given) && given !in t.reminded)
      && (delivery == AsUser(given) <==>
          !((Malformed(t) || IsRetry(t)) && t.afterTool) && Wanted(t, given) && given !in t.reminded)
  {
  }

  predicate Wanted(t: Turn, reminder: Reminder) {
    match reminder
    case InvalidCall => Malformed(t)
    case RepeatedCall => IsRetry(t)
    case Recovery => Stalled(t)
    case Plan => Plans(t) && Plan !in t.reminded
    case Finalize => Plans(t) && Plan in t.reminded
  }

  // What is on record afterwards: the retried call while it may be retried
  // again, and no call otherwise.
  lemma NormalState(st: GuardState, t: Turn)
    requires st.mode == Normal && t.present
    ensures var next := AfterModel(st, t).state;
      && next.mode == (if LastRetry(st, t) || Announces(t) then StopNow else Normal)
      && next.finalizeRounds == (if Announces(t) then 0 else st.finalizeRounds)
      && (next.signature.Some? <==> IsRetry(t) && !LastRetry(st, t))
      && (next.signature.Some? ==>
          next.signature == Some(t.single.value.signature) && next.name == Some(t.single.value.name))
      && next.rejectedRounds ==
          (if next.signature == None then 0 else if next.signature == st.signature then st.rejectedRounds + 1 else 1)
  {
  }

  // In finalize-only mode a turn that asks for tools is removed; the fifth of
  // them ends the run, and so does any turn that the answer can be taken from.
  lemma FinalizeOutcome(st: GuardState, t: Turn)
    requires st.mode == FinalizeOnly && t.present
    ensures var outcome := AfterModel(st, t).outcome;
      var asks := t.calls || t.invalidCalls;
      && (outcome == End <==> if asks then t.recoverable || st.finalizeRounds >= 4 else Prose(t) && AnswersInProse(t))
      && (outcome.Reprompt? <==> outcome != End && (asks || Prose(t)))
      && (outcome.Reprompt? ==> outcome == Reprompt(asks, if asks && t.afterTool then Nothing else AsUser(Finalize)))
  {
  }

  predicate NoCall(st: GuardState) {
    st.signature == None && st.name == None && st.rejectedRounds == 0
  }

  predicate SameCall(a: GuardState, b: GuardState) {
    a.signature == b.signature && a.name == b.name && a.rejectedRounds == b.rejectedRounds
  }

  // The rounds count the turns that asked for tools, until the run ends. What
  // was on record from normal mode is only left where the run is stopped
  // without an answer, or by one that is complete.
  lemma FinalizeState(st: GuardState, t: Turn)
    requires st.mode == FinalizeOnly && t.present
    ensures var step := AfterModel(st, t);
      var asks, ends := t.calls || t.invalidCalls, step.outcome == End;
      && step.state.mode == (if ends then StopNow else FinalizeOnly)
      && step.state.finalizeRounds == (if ends then 0 else if asks then st.finalizeRounds + 1 else st.finalizeRounds)
      && if ends && (if asks then !t.recoverable else t.text.completed) then SameCall(step.state, st)
        else NoCall(step.state)
  {
  }

  // A stopped run stays stopped when a turn arrives late, and the turn gets the
  // same answer as in normal mode, but that calls are not tracked.
  lemma StoppedTurn(st: GuardState, t: Turn)
    requires st.mode == StopNow
    ensures var step := AfterModel(st, t);
      && step.state.mode == StopNow
      && (step.outcome == End <==> Announces(t))
      && (step.outcome.Reprompt? <==> Malformed(t) || Stalled(t) || Plans(t))
      && (t.calls && !t.invalidCalls ==> step == Step(st, Proceed))
  {
  }

  // The hook before a model call ends a stopped run. In normal mode it forgets
  // the rounds of finalize-only mode; there it forgets the call on record where
  // it has nothing else to do, or has repaired the transcript.
  lemma BeforeOutcome(st: GuardState, isList: bool, repaired: bool)
    ensures var step := BeforeModel(st, isList, repaired);
      && step.outcome == (if st.mode == StopNow then End else Proceed) && step.state.mode == st.mode
      && step.state.finalizeRounds == (if st.mode == Normal then 0 else st.finalizeRounds)
      && if st.mode == FinalizeOnly && (!isList || repaired) then NoCall(step.state) else SameCall(step.state, st)
  {
  }

  // Nobody speaks: nothing changes, in any mode.
  lemma SilentTurn(st: GuardState, t: Turn)
    ensures !t.present ==> AfterModel(st, t) == Step(st, Proceed)
  {
  }

  // Runs in normal mode

  // An event that leaves the record of retries alone.
  predicate Quiet(e: Event) {
    e.Before? || (e.After? && !e.turn.present) || (e.Tools? && e.mode != FinalizeOnly)
  }

  // How many retries of the call stand at the end, with nothing else between
  // them.
  function Streak(events: seq<Event>, signature: string): nat {
    if events == [] then 0
    else
      var before, last := events[..|events| - 1], events[|events| - 1];
      if Quiet(last) then Streak(before, signature)
      else if RetryOf(last, signature) then Streak(before, signature) + 1
      else 0
  }

  // The run goes on in normal mode: no tool asked for the final answer, no
  // answer was announced, and no call was retried a third time.
  ghost predicate Ordinary(events: seq<Event>) {
    && (forall i :: 0 <= i < |events| ==> !LeavesNormal(events[i]))
    && forall i :: 0 <= i <= |events| ==> Short(events[..i])
  }

  // No call stands there as retried a third time.
  ghost predicate Short(events: seq<Event>) {
    forall signature :: Streak(events, signature) <= 2
  }

  predicate LeavesNormal(e: Event) {
    (e.Tools? && e.mode == FinalizeOnly) || (e.After? && Announces(e.turn))
  }

  // After every event the run is in normal mode.
  ghost predicate StaysNormal(events: seq<Event>) {
    forall i :: 0 <= i <= |events| ==> Run(INITIAL, events[..i]).mode == Normal
  }

  // The record holds the streak.
  ghost predicate Recorded(st: GuardState, events: seq<Event>) {
    && st.mode == Normal && Counters(st)
    && forall signature :: Streak(events, signature) == if st.signature == Some(signature) then st.rejectedRounds else 0
  }

  lemma RunLast(st: GuardState, events: seq<Event>, e: Event)
    ensures Run(st, events + [e]) == Next(Run(st, events), e).state
  {
    RunConcat(st, events, [e]);
    assert [e][1..] == [];
  }

  lemma StreakLast(events: seq<Event>, e: Event, signature: string)
    ensures Streak(events + [e], signature) ==
      if Quiet(e) then Streak(events, signature) else if RetryOf(e, signature) then Streak(events, signature) + 1 else 0
  {
    assert (events + [e])[..|events|] == events;
  }

  // One event keeps the record, unless it leaves the mode or is a third retry.
  lemma OneMore(st: GuardState, events: seq<Event>, e: Event)
    requires Recorded(st, events)
    ensures var next := Next(st, e).state;
      if LeavesNormal(e) || !Short(events + [e]) then next.mode != Normal
      else Recorded(next, events + [e])
  {
    NextKeepsCounters(st, e);
    forall signature
      ensures Streak(events + [e], signature) ==
        if Quiet(e) then Streak(events, signature)
        else if RetryOf(e, signature) then Streak(events, signature) + 1 else 0
    {
      StreakLast(events, e, signature);
    }
    hide Streak;
    if e.After? && e.turn.present && IsRetry(e.turn) {
      assert RetryOf(e, e.turn.single.value.signature);
    }
  }

  lemma StaysOneMore(events: seq<Event>, e: Event)
    ensures StaysNormal(events + [e]) <==> StaysNormal(events) && Run(INITIAL, events + [e]).mode == Normal
  {
    var all := events + [e];
    assert all[..|all|] == all;
    assert forall i :: 0 <= i <= |events| ==> all[..i] == events[..i];
  }

  lemma OrdinaryOneMore(events: seq<Event>, e: Event)
    ensures Ordinary(events + [e]) <==> Ordinary(events) && !LeavesNormal(e) && Short(events + [e])
  {
    hide Short, LeavesNormal;
    var all := events + [e];
    assert all[..|all|] == all && all[|events|] == e;
    assert forall i :: 0 <= i <= |events| ==> all[..i] == events[..i];
    assert forall i :: 0 <= i < |events| ==> all[i] == events[i];
    if Ordinary(all) {
      forall i | 0 <= i <= |events| ensures Short(events[..i]) { assert Short(all[..i]); }
      forall i | 0 <= i < |events| ensures !LeavesNormal(events[i]) { assert !LeavesNormal(all[i]); }
    }
  }

  // From the initial state a run stays in normal mode exactly if it is
  // ordinary, and then the record holds the streak.
  lemma {:induction false} StaysNormalIff(events: seq<Event>)
    ensures StaysNormal(events) <==> Ordinary(events)
    ensures Ordinary(events) ==> Recorded(Run(INITIAL, events), events)
  {
    if events == [] {
      assert forall i :: 0 <= i <= |events| ==> events[..i] == [];
    } else {
      var before, e := events[..|events| - 1], events[|events| - 1];
      assert events == before + [e];
      StaysNormalIff(before);
      RunLast(INITIAL, before, e);
      StaysOneMore(before, e);
      OrdinaryOneMore(before, e);
      hide Ordinary, StaysNormal, Short, Streak, Next, LeavesNormal;
      if Ordinary(before) {
        OneMore(Run(INITIAL, before), before, e);
      }
    }
  }

  // What ends such a run is an announcement, or the third retry in a streak.
  lemma NormalRunEnds(events: seq<Event>, t: Turn)
    requires Ordinary(events)
    ensures AfterModel(Run(INITIAL, events), t).outcome == End <==>
      Announces(t) || exists signature :: Streak(events + [After(t)], signature) == 3
  {
    StaysNormalIff(events);
    var st := Run(INITIAL, events);
    NormalOutcome(st, t);
    forall signature
      ensures Streak(events + [After(t)], signature) ==
        if Quiet(After(t)) then Streak(events, signature)
        else if RetryOf(After(t), signature) then Streak(events, signature) + 1 else 0
    {
      StreakLast(events, After(t), signature);
    }
    assert events[..|events|] == events;
    hide AfterModel, Streak;
    forall signature ensures Streak(events, signature) <= 2 { assert Short(events[..|events|]); }
    if LastRetry(st, t) {
      var signature := t.single.value.signature;
      assert RetryOf(After(t), signature) && Streak(events, signature) == st.rejectedRounds;
      assert Streak(events + [After(t)], signature) == 3;
    }
    if signature :| Streak(events + [After(t)], signature) == 3 {
      assert RetryOf(After(t), signature) && Streak(events, signature) == 2;
      assert LastRetry(st, t);
    }
  }

  // A hook before a model call, or a turn that nothing is wrong with.
  predicate Unhindered(e: Event) {
    e.Before? || (e.After? && !Malformed(e.turn) && !IsRetry(e.turn) && !Announces(e.turn) && !Stalled(e.turn) &&
        !Plans(e.turn))
  }

  ghost predicate AllProceed(st: GuardState, events: seq<Event>)
    decreases events
  {
    events == [] || (Next(st, events[0]).outcome == Proceed && AllProceed(Next(st, events[0]).state, events[1..]))
  }

  // The guard lets a run through unchanged exactly if nothing is wrong with any
  // of its turns.
  lemma {:induction false} LetThroughIff(events: seq<Event>)
    requires forall i :: 0 <= i < |events| ==> !events[i].Tools?
    ensures AllProceed(INITIAL, events) <==> forall i :: 0 <= i < |events| ==> Unhindered(events[i])
    ensures AllProceed(INITIAL, events) ==> Run(INITIAL, events) == INITIAL
    decreases events
  {
    if events != [] {
      var e := events[0];
      if e.After? {
        NormalOutcome(INITIAL, e.turn);
        SilentTurn(INITIAL, e.turn);
      }
      if Unhindered(e) {
        UnhinderedKeeps(e);
        assert forall i :: 0 <= i < |events[1..]| ==> events[1..][i] == events[i + 1];
        LetThroughIff(events[1..]);
        assert forall i :: 0 < i < |events| ==> events[i] == events[1..][i - 1];
      }
    }
  }

  lemma UnhinderedKeeps(e: Event)
    requires Unhindered(e)
    ensures Next(INITIAL, e) == Step(INITIAL, Proceed)
  {
  }

  // Where a stretch starts

  // After a hook before a model call in normal mode, a stretch of finalize-only
  // mode starts with no round on record, whatever turns come in between.
  lemma {:induction false} StretchStartsFresh(st: GuardState, isList: bool, repaired: bool, turns: seq<Turn>)
    requires st.mode == Normal
    ensures var after := Run(BeforeModel(st, isList, repaired).state,
        seq(|turns|, i requires 0 <= i < |turns| => After(turns[i])));
      after.mode != StopNow ==>
        Next(after, Tools(FinalizeOnly)).state == after.(mode := FinalizeOnly) && after.finalizeRounds == 0
  {
    NoRounds(BeforeModel(st, isList, repaired).state, turns);
  }

  lemma {:induction false} NoRounds(st: GuardState, turns: seq<Turn>)
    requires st.mode != FinalizeOnly && st.finalizeRounds == 0
    ensures var after := Run(st, seq(|turns|, i requires 0 <= i < |turns| => After(turns[i])));
      after.finalizeRounds == 0
    decreases turns
  {
    if turns != [] {
      var events := seq(|turns|, i requires 0 <= i < |turns| => After(turns[i]));
      assert events[1..] == seq(|turns[1..]|, i requires 0 <= i < |turns[1..]| => After(turns[1..][i]));
      NoRounds(AfterModel(st, turns[0]).state, turns[1..]);
    }
  }
}
