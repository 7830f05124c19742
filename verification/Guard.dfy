// The continuation guard: hooks around the model call that re-prompt, and
// circuit breakers that stop a run which keeps asking for tools.
module Guard {
  import opened Rdf

  datatype Mode = Normal | FinalizeOnly | StopNow

  // The guard's private state, kept by the graph between hook calls.
  datatype GuardState = GuardState(
    mode: Mode,
    finalizeRounds: nat,
    signature: Option<string>,
    name: Option<string>,
    rejectedRounds: nat)

  const INITIAL := GuardState(Normal, 0, None, None, 0)

  const MAX_FINALIZE_ROUNDS := 5
  const MAX_REJECTED_ROUNDS := 3

  datatype Call = Call(name: string, signature: string)

  // What the hook after a model call finds out about the latest assistant turn
  // and the messages before it.
  datatype Turn = Turn(
    present: bool,
    calls: bool,
    invalidCalls: bool,
    // The only tool call of the turn, if there is exactly one and it has a name.
    single: Option<Call>,
    // The call that the latest tool message rejected, if it did.
    rejected: Option<Call>,
    afterTool: bool,
    reminded: set<Reminder>,
    // A successful serialization can be recovered as the answer.
    recoverable: bool,
    afterSerialization: bool,
    recentError: bool,
    text: Text)

  datatype Text = Text(empty: bool, completed: bool, reuse: bool, preamble: bool, recovery: bool, plan: bool)

  datatype Reminder = Finalize | InvalidCall | RepeatedCall | Recovery | Plan

  datatype Delivery = Nothing | AsUser(reminder: Reminder) | AsSystem(reminder: Reminder)

  datatype Outcome = Proceed | End | Reprompt(turnRemoved: bool, delivery: Delivery)

  datatype Step = Step(state: GuardState, outcome: Outcome)

  function Tracking(st: GuardState, call: Option<Call>, rounds: nat): GuardState {
    match call
    case None => st.(signature := None, name := None, rejectedRounds := rounds)
    case Some(c) => st.(signature := Some(c.signature), name := Some(c.name), rejectedRounds := rounds)
  }

  function Cleared(st: GuardState): GuardState {
    Tracking(st, None, 0)
  }

  function Stopped(st: GuardState): GuardState {
    st.(mode := StopNow, finalizeRounds := 0)
  }

  // A turn is about to be removed: a user message may not follow a tool
  // message, and a family is not repeated.
  function Deliver(t: Turn, reminder: Reminder): Delivery {
    if reminder in t.reminded then Nothing
    else if t.afterTool then AsSystem(reminder)
    else AsUser(reminder)
  }

  // The single call of the turn repeats a call that has just been rejected.
  predicate Repeats(t: Turn, signature: string) {
    && t.single.Some? && t.single.value.signature == signature
    && t.rejected.Some? && t.rejected.value.signature == signature
  }

  function RepeatedRejected(st: GuardState, t: Turn): Step {
    if t.single == None || t.rejected == None || t.rejected.value.signature != t.single.value.signature then
      Step(Cleared(st), Proceed)
    else
      var call := t.single.value;
      var rounds := if st.signature == Some(call.signature) then st.rejectedRounds + 1 else 1;
      if rounds < MAX_REJECTED_ROUNDS then
        Step(Tracking(st, Some(call), rounds), Reprompt(true, Deliver(t, RepeatedCall)))
      else
        Step(Cleared(st).(mode := StopNow), End)
  }

  function AfterModel(st: GuardState, t: Turn): Step {
    if !t.present then Step(st, Proceed)
    else if st.mode == FinalizeOnly && (t.calls || t.invalidCalls) then
      if t.recoverable then Step(Cleared(Stopped(st)), End)
      else if st.finalizeRounds + 1 >= MAX_FINALIZE_ROUNDS then Step(Stopped(st), End)
      else
        Step(Cleared(st.(finalizeRounds := st.finalizeRounds + 1)),
          Reprompt(true, if t.afterTool then Nothing else AsUser(Finalize)))
    else if t.invalidCalls then
      Step(Cleared(st), Reprompt(true, Deliver(t, InvalidCall)))
    else if t.calls then
      if st.mode == Normal then RepeatedRejected(st, t) else Step(st, Proceed)
    else if t.text.empty then Step(Cleared(st), Proceed)
    else if st.mode == FinalizeOnly then
      if t.text.completed then Step(Stopped(st), End)
      else if t.text.reuse && t.recoverable then Step(Cleared(Stopped(st)), End)
      else Step(Cleared(st), Reprompt(false, AsUser(Finalize)))
    else if t.text.preamble && t.afterSerialization && t.recoverable then Step(Cleared(Stopped(st)), End)
    else if t.text.completed then Step(Cleared(st), Proceed)
    else if t.text.recovery then
      if !t.recentError || Recovery in t.reminded then Step(Cleared(st), Proceed)
      else Step(Cleared(st), Reprompt(false, AsUser(Recovery)))
    else if t.text.plan then
      if Finalize in t.reminded then Step(Cleared(st), Proceed)
      else if Plan in t.reminded then Step(Cleared(st), Reprompt(false, AsUser(Finalize)))
      else Step(Cleared(st), Reprompt(false, AsUser(Plan)))
    else Step(Cleared(st), Proceed)
  }

  // Counters of a mode the run is not in are reset.
  function ClearInactive(st: GuardState): GuardState {
    var st' := if st.mode == FinalizeOnly then st else st.(finalizeRounds := 0);
    if st.mode == Normal then st' else Cleared(st')
  }

  // The hook before a model call. In finalize-only mode it resets nothing when
  // the transcript needed no repair.
  function BeforeModel(st: GuardState, isList: bool, repaired: bool): Step {
    if st.mode == StopNow then Step(st, End)
    else if !isList || repaired || st.mode != FinalizeOnly then Step(ClearInactive(st), Proceed)
    else Step(st, Proceed)
  }

  // Runs

  // Hooks in any order, and tools that switch the mode. Tools leave a stopped
  // run alone and never stop one.
  datatype Event = Before(isList: bool, repaired: bool) | After(turn: Turn) | Tools(mode: Mode)

  function Next(st: GuardState, e: Event): Step {
    match e
    case Before(isList, repaired) => BeforeModel(st, isList, repaired)
    case After(turn) => AfterModel(st, turn)
    case Tools(mode) => Step(if st.mode == StopNow || mode == StopNow then st else st.(mode := mode), Proceed)
  }

  function Run(st: GuardState, events: seq<Event>): GuardState
    decreases events
  {
    if events == [] then st else Run(Next(st, events[0]).state, events[1..])
  }

  ghost predicate Counters(st: GuardState) {
    && st.finalizeRounds < MAX_FINALIZE_ROUNDS
    && st.rejectedRounds < MAX_REJECTED_ROUNDS
    && (st.rejectedRounds == 0 <==> st.signature == None)
    && (st.signature == None <==> st.name == None)
  }

  lemma NextKeepsCounters(st: GuardState, e: Event)
    requires Counters(st)
    ensures Counters(Next(st, e).state)
  {
  }

  // Over every run: at most four finalize-only rounds and at most two retries
  // are ever on record, and a retry count belongs to a recorded call.
  lemma RunKeepsCounters(events: seq<Event>)
    ensures Counters(Run(INITIAL, events))
  {
    CountersFrom(INITIAL, events);
  }

  lemma {:induction false} CountersFrom(st: GuardState, events: seq<Event>)
    requires Counters(st)
    ensures Counters(Run(st, events))
    decreases events
  {
    if events != [] {
      NextKeepsCounters(st, events[0]);
      CountersFrom(Next(st, events[0]).state, events[1..]);
    }
  }

  // Finalize-only stretches

  // Every event of the stretch finds the run in finalize-only mode.
  ghost predicate Stretch(st: GuardState, events: seq<Event>)
    decreases events
  {
    events == [] || (st.mode == FinalizeOnly && Stretch(Next(st, events[0]).state, events[1..]))
  }

  predicate AsksForTools(e: Event) {
    e.After? && e.turn.present && (e.turn.calls || e.turn.invalidCalls)
  }

  function ToolTurns(events: seq<Event>): nat {
    if events == [] then 0 else (if AsksForTools(events[0]) then 1 else 0) + ToolTurns(events[1..])
  }

  // As long as the run has not left finalize-only mode, every turn that asked
  // for tools has been counted; whatever else happened in between did not
  // reset the count.
  lemma {:induction false} StretchCounts(st: GuardState, events: seq<Event>)
    requires Counters(st) && Stretch(st, events)
    ensures Run(st, events).mode == FinalizeOnly ==>
      Run(st, events).finalizeRounds == st.finalizeRounds + ToolTurns(events)
    ensures st.finalizeRounds + ToolTurns(events) <= MAX_FINALIZE_ROUNDS
    decreases events
  {
    if events != [] {
      var next := Next(st, events[0]).state;
      NextKeepsCounters(st, events[0]);
      StretchCounts(next, events[1..]);
      if next.mode != FinalizeOnly {
        assert events[1..] == [];
      }
    }
  }

  // At most four turns that ask for tools are re-prompted within a stretch.
  lemma StretchStops(st: GuardState, events: seq<Event>, t: Turn)
    requires Counters(st) && st.mode == FinalizeOnly && st.finalizeRounds == 0
    requires Stretch(st, events) && Run(st, events).mode == FinalizeOnly && AsksForTools(After(t))
    ensures ToolTurns(events) <= 4
    ensures var step := AfterModel(Run(st, events), t);
      if ToolTurns(events) == 4 || t.recoverable then step.outcome == End && step.state.mode == StopNow && step.state.finalizeRounds == 0
      else step.outcome.Reprompt? && step.state.mode == FinalizeOnly && step.state.finalizeRounds == ToolTurns(events) + 1
  {
    StretchCounts(st, events);
    CountersFrom(st, events);
  }

  // What bounds a stretch

  predicate AnswersInProse(t: Turn) {
    t.text.completed || (t.text.reuse && t.recoverable)
  }

  // The events that lead out of finalize-only mode whatever has been counted.
  predicate Answers(e: Event) {
    match e
    case Before(_, _) => false
    case After(t) => t.present && if t.calls || t.invalidCalls then t.recoverable else !t.text.empty && AnswersInProse(t)
    case Tools(mode) => mode == Normal
  }

  // Turns of prose that is not empty.
  predicate IsProse(e: Event) {
    e.After? && e.turn.present && !e.turn.calls && !e.turn.invalidCalls && !e.turn.text.empty
  }

  function ProseTurns(events: seq<Event>): nat {
    if events == [] then 0 else (if IsProse(events[0]) then 1 else 0) + ProseTurns(events[1..])
  }

  function Reprompts(st: GuardState, events: seq<Event>): nat
    decreases events
  {
    if events == [] then 0
    else (if Next(st, events[0]).outcome.Reprompt? then 1 else 0) + Reprompts(Next(st, events[0]).state, events[1..])
  }

  ghost predicate Stays(st: GuardState, events: seq<Event>) {
    Stretch(st, events) && Run(st, events).mode == FinalizeOnly
  }

  ghost predicate Unanswered(events: seq<Event>) {
    forall i :: 0 <= i < |events| ==> !Answers(events[i])
  }

  // One event leaves the mode if it answers, or if it is the fifth to ask for tools.
  lemma StaysOneStep(st: GuardState, e: Event)
    requires Counters(st) && st.mode == FinalizeOnly
    ensures var step := Next(st, e);
      && (step.state.mode == FinalizeOnly <==> !Answers(e) && (AsksForTools(e) ==> st.finalizeRounds < 4))
      && (step.state.mode == FinalizeOnly ==>
        && step.state.finalizeRounds == st.finalizeRounds + (if AsksForTools(e) then 1 else 0)
        && (step.outcome.Reprompt? <==> AsksForTools(e) || IsProse(e)))
  {
  }

  // Exactly when a run stays in finalize-only mode: nothing answers, and at
  // most four turns in all ask for tools.
  lemma {:induction false} StaysIff(st: GuardState, events: seq<Event>)
    requires Counters(st) && st.mode == FinalizeOnly
    ensures Stays(st, events) <==> Unanswered(events) && st.finalizeRounds + ToolTurns(events) <= 4
    decreases events
  {
    if events != [] {
      var step := Next(st, events[0]);
      StaysOneStep(st, events[0]);
      NextKeepsCounters(st, events[0]);
      hide Next, Answers;
      assert Unanswered(events) <==> !Answers(events[0]) && Unanswered(events[1..]) by {
        assert forall i :: 0 < i < |events| ==> events[i] == events[1..][i - 1];
        assert forall i :: 0 <= i < |events[1..]| ==> events[1..][i] == events[i + 1];
      }
      if step.state.mode == FinalizeOnly {
        StaysIff(step.state, events[1..]);
      } else {
        LeavesForGood(step.state, events[1..]);
      }
    }
  }

  lemma LeavesForGood(st: GuardState, events: seq<Event>)
    requires st.mode != FinalizeOnly
    ensures !Stays(st, events)
  {
  }

  // Such a run re-prompts exactly the turns that ask for tools and the turns of
  // prose. The former are at most four, so re-prompting is bounded if and only
  // if prose is.
  lemma {:induction false} RepromptsCounted(st: GuardState, events: seq<Event>)
    requires Counters(st) && st.mode == FinalizeOnly && Stays(st, events)
    ensures Reprompts(st, events) == ToolTurns(events) + ProseTurns(events)
    ensures ProseTurns(events) <= Reprompts(st, events) <= ProseTurns(events) + 4
    decreases events
  {
    StaysIff(st, events);
    if events != [] {
      var step := Next(st, events[0]);
      StaysOneStep(st, events[0]);
      NextKeepsCounters(st, events[0]);
      hide Next, Answers;
      RepromptsCounted(step.state, events[1..]);
    }
  }

  // Prose is not: from any state of the mode there is a run with any number of
  // such turns, all of them re-prompted.
  lemma {:induction false} ProseIsNeverStopped(st: GuardState, t: Turn, n: nat)
    requires st.mode == FinalizeOnly && IsProse(After(t)) && !AnswersInProse(t)
    ensures var events := seq(n, _ => After(t));
      Stays(st, events) && Run(st, events).finalizeRounds == st.finalizeRounds && Reprompts(st, events) == ProseTurns(events) == n
    decreases n
  {
    if n > 0 {
      assert seq(n, _ => After(t))[1..] == seq(n - 1, _ => After(t));
      ProseIsNeverStopped(AfterModel(st, t).state, t, n - 1);
    }
  }

  // Retries of a rejected call

  predicate RetryOf(e: Event, signature: string) {
    e.After? && e.turn.present && e.turn.calls && !e.turn.invalidCalls && Repeats(e.turn, signature)
  }

  // Model calls of one series of retries, with the hook before each of them.
  ghost predicate RetrySeries(events: seq<Event>, signature: string) {
    forall i :: 0 <= i < |events| ==> events[i].Before? || RetryOf(events[i], signature)
  }

  function Retries(events: seq<Event>): nat {
    if events == [] then 0 else (if events[0].After? then 1 else 0) + Retries(events[1..])
  }

  ghost predicate Tried(st: GuardState, signature: string, n: nat) {
    st.mode == Normal && if n == 0 then st.signature != Some(signature) else st.signature == Some(signature) && st.rejectedRounds == n
  }

  lemma {:induction false} RetriesCounted(st: GuardState, events: seq<Event>, signature: string, n: nat)
    requires Counters(st) && Tried(st, signature, n) && RetrySeries(events, signature)
    requires n + Retries(events) < MAX_REJECTED_ROUNDS
    ensures Tried(Run(st, events), signature, n + Retries(events)) && Counters(Run(st, events))
    decreases events
  {
    if events != [] {
      NextKeepsCounters(st, events[0]);
      assert forall i :: 0 <= i < |events[1..]| ==> events[1..][i] == events[i + 1];
      RetriesCounted(Next(st, events[0]).state, events[1..], signature, if events[0].After? then n + 1 else n);
    }
  }

  // The first two retries of the same rejected call are re-prompted, and the
  // third one stops the run.
  lemma ThirdRetryStops(st: GuardState, events: seq<Event>, signature: string, t: Turn)
    requires Counters(st) && Tried(st, signature, 0) && RetrySeries(events, signature)
    requires Retries(events) < MAX_REJECTED_ROUNDS && RetryOf(After(t), signature)
    ensures var step := AfterModel(Run(st, events), t);
      if Retries(events) == 2 then step.outcome == End && step.state.mode == StopNow && step.state.rejectedRounds == 0
      else step.outcome.Reprompt? && Tried(step.state, signature, Retries(events) + 1)
  {
    RetriesCounted(st, events, signature, 0);
  }

  // Stopping

  // A stopped run stays stopped, whatever happens, and the next hook before a
  // model call ends it.
  lemma {:induction false} StopIsFinal(st: GuardState, events: seq<Event>, isList: bool, repaired: bool)
    requires st.mode == StopNow
    ensures Run(st, events).mode == StopNow
    ensures BeforeModel(Run(st, events), isList, repaired).outcome == End
    decreases events
  {
    if events != [] {
      StopIsFinal(Next(st, events[0]).state, events[1..], isList, repaired);
    }
  }

  // The hooks end a run in no other way than by stopping it.
  lemma EndMeansStopped(st: GuardState, e: Event)
    requires Next(st, e).outcome == End
    ensures Next(st, e).state.mode == StopNow
  {
  }

  // So a run that has ended stays stopped, whatever happens after, and every
  // later hook before a model call ends it again.
  lemma EndIsFinal(st: GuardState, events: seq<Event>, more: seq<Event>, e: Event, isList: bool, repaired: bool)
    requires Next(Run(st, events), e).outcome == End
    ensures Run(st, events + [e] + more).mode == StopNow
    ensures BeforeModel(Run(st, events + [e] + more), isList, repaired).outcome == End
  {
    hide Next, BeforeModel;
    var ended := Next(Run(st, events), e).state;
    EndMeansStopped(Run(st, events), e);
    StopIsFinal(ended, more, isList, repaired);
    RunConcat(st, events, [e] + more);
    assert events + [e] + more == events + ([e] + more);
    assert ([e] + more)[1..] == more;
  }

  lemma {:induction false} RunConcat(st: GuardState, a: seq<Event>, b: seq<Event>)
    ensures Run(st, a + b) == Run(Run(st, a), b)
    decreases a
  {
    if a == [] {
      assert a + b == b;
    } else {
      assert (a + b)[0] == a[0] && (a + b)[1..] == a[1..] + b;
      RunConcat(Next(st, a[0]).state, a[1..], b);
    }
  }
}
