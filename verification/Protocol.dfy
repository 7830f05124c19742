// The tool-call protocol told by positions in the transcript: which reply
// belongs to which turn, and when a turn has been answered.
module Protocol {
  import opened Rdf
  import opened Transcript

  // The turn asks for the call; a call without an id, or with an empty one, is
  // not waited for.
  ghost predicate Asks(m: Message, id: Id) {
    m.Assistant? && id != "" && exists k :: 0 <= k < |m.calls| && m.calls[k] == Some(id)
  }

  ghost predicate RepliesTo(m: Message, id: Id) {
    m.Tool? && m.callId == Some(id)
  }

  // The nearest message before i that is not a reply stands at t.
  ghost predicate TurnBefore(ms: seq<Message>, t: int, i: int) {
    0 <= t < i <= |ms| && !ms[t].Tool? && forall j :: t < j < i ==> ms[j].Tool?
  }

  ghost predicate RepliedBetween(ms: seq<Message>, t: int, i: int, id: Id)
    requires -1 <= t && i <= |ms|
  {
    exists j :: t < j < i && RepliesTo(ms[j], id)
  }

  // A reply is in order: it names a call of its turn that nobody has answered.
  ghost predicate InPlace(ms: seq<Message>, i: int)
    requires 0 <= i < |ms|
  {
    ms[i].Tool? ==>
      exists t, id :: TurnBefore(ms, t, i) && RepliesTo(ms[i], id) && Asks(ms[t], id) && !RepliedBetween(ms, t, i, id)
  }

  // Every call of the turn is answered before the next message that is not a
  // reply, or before the end.
  ghost predicate AllAnswered(ms: seq<Message>, t: int)
    requires 0 <= t < |ms|
  {
    forall id :: Asks(ms[t], id) ==> exists i :: TurnBefore(ms, t, i) && RepliedBetween(ms, t, i, id)
  }

  ghost predicate InOrder(ms: seq<Message>) {
    && (forall i :: 0 <= i < |ms| ==> InPlace(ms, i))
    && forall t :: 0 <= t < |ms| ==> AllAnswered(ms, t)
  }

  // The reading at position i

  // The turn before i still waits for the call.
  ghost predicate Waits(ms: seq<Message>, i: int, id: Id) {
    0 <= i <= |ms| && exists t :: TurnBefore(ms, t, i) && Asks(ms[t], id) && !RepliedBetween(ms, t, i, id)
  }

  ghost predicate Stands(ms: seq<Message>, i: int, st: State) {
    && 0 <= i <= |ms| && (st.Inside? ==> st.pending != {} && forall t :: TurnBefore(ms, t, i) ==> ms[t] == st.turn)
    && forall id :: Waits(ms, i, id) <==> st.Inside? && id in st.pending
  }

  lemma OneTurn(ms: seq<Message>, t: int, u: int, i: int)
    requires TurnBefore(ms, t, i) && TurnBefore(ms, u, i)
    ensures t == u
  {
  }

  lemma StandsAtStart(ms: seq<Message>)
    ensures Stands(ms, 0, Outside)
  {
  }

  lemma AsksIsCallId(m: Message, id: Id)
    ensures id in CallIds(m) <==> Asks(m, id)
  {
  }

  lemma AfterTurn(ms: seq<Message>, i: int)
    requires 0 <= i < |ms| && !ms[i].Tool?
    ensures Stands(ms, i + 1, Opened(ms[i]))
  {
    assert TurnBefore(ms, i, i + 1);
    forall id ensures Waits(ms, i + 1, id) <==> Asks(ms[i], id) {
      if Waits(ms, i + 1, id) {
        var t :| TurnBefore(ms, t, i + 1) && Asks(ms[t], id) && !RepliedBetween(ms, t, i + 1, id);
        OneTurn(ms, t, i, i + 1);
      }
      if Asks(ms[i], id) {
        assert !RepliedBetween(ms, i, i + 1, id);
      }
      AsksIsCallId(ms[i], id);
    }
    forall id ensures id in CallIds(ms[i]) <==> Asks(ms[i], id) { AsksIsCallId(ms[i], id); }
  }

  lemma WaitsAfterReply(ms: seq<Message>, i: int, id: Id)
    requires 0 <= i < |ms| && ms[i].Tool?
    ensures Waits(ms, i + 1, id) <==> Waits(ms, i, id) && !RepliesTo(ms[i], id)
  {
    hide Asks;
    if Waits(ms, i + 1, id) {
      var t :| TurnBefore(ms, t, i + 1) && Asks(ms[t], id) && !RepliedBetween(ms, t, i + 1, id);
      assert TurnBefore(ms, t, i) && !RepliedBetween(ms, t, i, id);
    }
    if Waits(ms, i, id) && !RepliesTo(ms[i], id) {
      var t :| TurnBefore(ms, t, i) && Asks(ms[t], id) && !RepliedBetween(ms, t, i, id);
      assert TurnBefore(ms, t, i + 1) && !RepliedBetween(ms, t, i + 1, id);
    }
  }

  lemma AfterReply(ms: seq<Message>, i: int, st: State)
    requires Stands(ms, i, st) && i < |ms| && Answers(ms[i], st)
    ensures Stands(ms, i + 1, Answered(st, ms[i]))
  {
    hide Waits;
    forall id ensures Waits(ms, i + 1, id) <==> Waits(ms, i, id) && !RepliesTo(ms[i], id) {
      WaitsAfterReply(ms, i, id);
    }
    var next := Answered(st, ms[i]);
    forall t | TurnBefore(ms, t, i + 1) ensures next.Inside? ==> ms[t] == next.turn {
      assert TurnBefore(ms, t, i);
    }
    assert next.Inside? ==> next.pending != {};
  }

  lemma InPlaceIff(ms: seq<Message>, i: int, st: State)
    requires Stands(ms, i, st) && i < |ms| && ms[i].Tool?
    ensures InPlace(ms, i) <==> Answers(ms[i], st)
  {
    hide Asks;
    if InPlace(ms, i) {
      var t, id :| TurnBefore(ms, t, i) && RepliesTo(ms[i], id) && Asks(ms[t], id) && !RepliedBetween(ms, t, i, id);
      assert Waits(ms, i, id);
    }
    if Answers(ms[i], st) {
      var id := ms[i].callId.value;
      assert Waits(ms, i, id);
      var t :| TurnBefore(ms, t, i) && Asks(ms[t], id) && !RepliedBetween(ms, t, i, id);
      assert RepliesTo(ms[i], id);
    }
  }

  // Where a turn's replies end it has been answered if nothing is waited for.
  lemma AnsweredAtEnd(ms: seq<Message>, t: int, i: int, st: State)
    requires Stands(ms, i, st) && TurnBefore(ms, t, i) && (i < |ms| ==> !ms[i].Tool?)
    ensures AllAnswered(ms, t) <==> st.Outside?
  {
    hide Asks;
    if st.Inside? {
      var id :| id in st.pending;
      assert Waits(ms, i, id);
      var u :| TurnBefore(ms, u, i) && Asks(ms[u], id) && !RepliedBetween(ms, u, i, id);
      OneTurn(ms, t, u, i);
      forall k | TurnBefore(ms, t, k) ensures !RepliedBetween(ms, t, k, id) {
        assert k <= i;
      }
    } else {
      forall id | Asks(ms[t], id) ensures RepliedBetween(ms, t, i, id) {
        assert !Waits(ms, i, id);
      }
    }
  }

  // What is left to check from position i on: the replies, the turns, and the
  // turn whose replies are being read.
  ghost predicate InOrderFrom(ms: seq<Message>, i: int)
    requires 0 <= i <= |ms|
  {
    && (forall k :: i <= k < |ms| ==> InPlace(ms, k))
    && (forall t :: i <= t < |ms| ==> AllAnswered(ms, t))
    && forall t :: TurnBefore(ms, t, i) ==> AllAnswered(ms, t)
  }

  lemma {:induction false} ScanIff(ms: seq<Message>, i: int, st: State)
    requires Stands(ms, i, st)
    ensures Scan(ms[i..], st) == None <==> InOrderFrom(ms, i)
    decreases |ms| - i
  {
    hide Asks, InPlace, AllAnswered, Waits;
    if i == |ms| {
      forall t | TurnBefore(ms, t, i) ensures AllAnswered(ms, t) <==> st.Outside? { AnsweredAtEnd(ms, t, i, st); }
      if st.Inside? {
        SomeTurn(ms, i, st);
      }
    } else {
      assert ms[i..][0] == ms[i] && ms[i..][1..] == ms[i + 1..];
      if ms[i].Tool? {
        InPlaceIff(ms, i, st);
        if Answers(ms[i], st) {
          AfterReply(ms, i, st);
          ScanIff(ms, i + 1, Answered(st, ms[i]));
          FromReply(ms, i);
        }
      } else {
        forall t | TurnBefore(ms, t, i) ensures AllAnswered(ms, t) <==> st.Outside? { AnsweredAtEnd(ms, t, i, st); }
        if st.Inside? {
          SomeTurn(ms, i, st);
        } else {
          AfterTurn(ms, i);
          ScanIff(ms, i + 1, Opened(ms[i]));
          FromTurn(ms, i);
        }
      }
    }
  }

  lemma SomeTurn(ms: seq<Message>, i: int, st: State)
    requires Stands(ms, i, st) && st.Inside?
    ensures exists t :: TurnBefore(ms, t, i)
  {
    var id :| id in st.pending;
    assert Waits(ms, i, id);
  }

  lemma FromReply(ms: seq<Message>, i: int)
    requires 0 <= i < |ms| && ms[i].Tool?
    ensures InOrderFrom(ms, i) <==> InPlace(ms, i) && InOrderFrom(ms, i + 1)
  {
    hide InPlace;
    assert forall t :: TurnBefore(ms, t, i) <==> TurnBefore(ms, t, i + 1);
    assert AllAnswered(ms, i);
    hide AllAnswered, TurnBefore;
  }

  lemma FromTurn(ms: seq<Message>, i: int)
    requires 0 <= i < |ms| && !ms[i].Tool? && forall t :: TurnBefore(ms, t, i) ==> AllAnswered(ms, t)
    ensures InOrderFrom(ms, i) <==> InOrderFrom(ms, i + 1)
  {
    assert InPlace(ms, i);
    assert TurnBefore(ms, i, i + 1);
    forall t | TurnBefore(ms, t, i + 1) ensures AllAnswered(ms, t) <==> AllAnswered(ms, i) {
      OneTurn(ms, t, i, i + 1);
    }
    hide InPlace, AllAnswered;
  }

  // The protocol check passes exactly the transcripts that are in order.
  lemma CleanIff(ms: seq<Message>)
    ensures Clean(ms) <==> InOrder(ms)
  {
    StandsAtStart(ms);
    ScanIff(ms, 0, Outside);
    assert ms[0..] == ms;
    hide InPlace, AllAnswered;
  }

  // The first violation

  // A reply out of place, or the end of the replies to a turn that has a call
  // left.
  ghost predicate Offends(ms: seq<Message>, k: int, issue: Issue) {
    && 0 <= k <= |ms|
    && if k < |ms| && ms[k].Tool? then
        !InPlace(ms, k) && issue == Issue(OrphanToolResponse, ms[k])
      else
        exists t :: TurnBefore(ms, t, k) && !AllAnswered(ms, t) && issue == Issue(UnresolvedToolCall, ms[t])
  }

  ghost predicate OffendsFirst(ms: seq<Message>, i: int, k: int, issue: Issue) {
    i <= k && Offends(ms, k, issue) && forall j, other :: i <= j < k ==> !Offends(ms, j, other)
  }

  lemma {:induction false} ScanReports(ms: seq<Message>, i: int, st: State, issue: Issue)
    requires Stands(ms, i, st)
    ensures Scan(ms[i..], st) == Some(issue) <==> exists k :: OffendsFirst(ms, i, k, issue)
    decreases |ms| - i
  {
    hide Asks, InPlace, AllAnswered, Waits, Answered, Opened;
    if i == |ms| {
      assert ms[i..] == [];
    } else {
      assert ms[i..][0] == ms[i] && ms[i..][1..] == ms[i + 1..];
      if ms[i].Tool? {
        InPlaceIff(ms, i, st);
        if Answers(ms[i], st) {
          AfterReply(ms, i, st);
          ScanReports(ms, i + 1, Answered(st, ms[i]), issue);
          PassesHere(ms, i, i + 1, issue);
        } else {
          OffendsHere(ms, i, Issue(OrphanToolResponse, ms[i]), issue);
        }
        return;
      }
    }
    forall t | TurnBefore(ms, t, i) ensures AllAnswered(ms, t) <==> st.Outside? { AnsweredAtEnd(ms, t, i, st); }
    if st.Inside? {
      SomeTurn(ms, i, st);
      OffendsHere(ms, i, Issue(UnresolvedToolCall, st.turn), issue);
    } else {
      if i < |ms| {
        AfterTurn(ms, i);
        ScanReports(ms, i + 1, Opened(ms[i]), issue);
      }
      PassesHere(ms, i, i + 1, issue);
    }
  }

  lemma OffendsHere(ms: seq<Message>, i: int, here: Issue, issue: Issue)
    requires forall other :: Offends(ms, i, other) <==> other == here
    ensures (exists k :: OffendsFirst(ms, i, k, issue)) <==> issue == here
  {
    hide Offends;
    assert Offends(ms, i, here);
    assert OffendsFirst(ms, i, i, here);
  }

  lemma PassesHere(ms: seq<Message>, i: int, next: int, issue: Issue)
    requires next == i + 1 && forall other :: !Offends(ms, i, other)
    ensures (exists k :: OffendsFirst(ms, i, k, issue)) <==> exists k :: OffendsFirst(ms, next, k, issue)
  {
    hide Offends;
    forall k ensures OffendsFirst(ms, i, k, issue) <==> OffendsFirst(ms, next, k, issue) {
      if OffendsFirst(ms, i, k, issue) {
        assert k != i;
      }
    }
  }

  // What is reported is the first violation.
  lemma ReportedIff(ms: seq<Message>, issue: Issue)
    ensures Scan(ms, Outside) == Some(issue) <==> exists k :: OffendsFirst(ms, 0, k, issue)
  {
    StandsAtStart(ms);
    ScanReports(ms, 0, Outside, issue);
    assert ms[0..] == ms;
  }

  // A turn and one reply to each of its calls, in any order.
  ghost predicate TurnWithReplies(block: seq<Message>) {
    && block != [] && !block[0].Tool?
    && (forall k :: 1 <= k < |block| ==> exists id :: RepliesTo(block[k], id) && Asks(block[0], id))
    && (forall j, k :: 1 <= j < k < |block| ==> block[j].callId != block[k].callId)
    && forall id :: Asks(block[0], id) ==> RepliedBetween(block, 0, |block|, id)
  }

  predicate Answering(m: Message, pending: set<Id>) {
    m.Tool? && m.callId.Some? && m.callId.value in pending
  }

  // One reply to each call that is pending.
  ghost predicate RepliesOnce(replies: seq<Message>, pending: set<Id>) {
    && (forall k :: 0 <= k < |replies| ==> Answering(replies[k], pending))
    && (forall j, k :: 0 <= j < k < |replies| ==> replies[j].callId != replies[k].callId)
    && forall id :: id in pending ==> RepliedBetween(replies, -1, |replies|, id)
  }

  lemma RepliedRest(ms: seq<Message>, t: int, id: Id)
    requires 0 <= t + 1 && ms != [] && RepliedBetween(ms, t, |ms|, id) && (t < 0 ==> !RepliesTo(ms[0], id))
    ensures RepliedBetween(ms[1..], -1, |ms| - 1, id)
  {
    var k :| t < k < |ms| && RepliesTo(ms[k], id);
    assert ms[1..][k - 1] == ms[k];
  }

  lemma RepliesRest(replies: seq<Message>, pending: set<Id>)
    requires RepliesOnce(replies, pending) && replies != []
    ensures Answering(replies[0], pending)
    ensures RepliesOnce(replies[1..], pending - {replies[0].callId.value})
  {
    hide RepliedBetween;
    var rest, left := replies[1..], pending - {replies[0].callId.value};
    forall k | 0 <= k < |rest| ensures Answering(rest[k], left) {
      assert rest[k] == replies[k + 1] && Answering(replies[k + 1], pending);
    }
    forall id | id in left ensures RepliedBetween(rest, -1, |rest|, id) { RepliedRest(replies, -1, id); }
  }

  lemma RepliesNone(replies: seq<Message>, pending: set<Id>)
    requires RepliesOnce(replies, pending)
    ensures pending == {} <==> replies == []
  {
    if pending != {} {
      var id :| id in pending;
      assert RepliedBetween(replies, -1, |replies|, id);
    }
    if replies != [] {
      assert Answering(replies[0], pending);
    }
  }

  lemma {:induction false} RepliesComplete(replies: seq<Message>, st: State)
    requires st.Inside? && st.pending != {} && RepliesOnce(replies, st.pending)
    ensures Completes(replies, st)
  {
    hide RepliesOnce;
    RepliesNone(replies, st.pending);
    RepliesRest(replies, st.pending);
    var rest, left := replies[1..], st.pending - {replies[0].callId.value};
    RepliesNone(rest, left);
    if left != {} {
      RepliesComplete(rest, Answered(st, replies[0]));
    }
  }

  lemma RepliesOfTurn(block: seq<Message>)
    requires TurnWithReplies(block)
    ensures RepliesOnce(block[1..], CallIds(block[0]))
  {
    var turn, replies := block[0], block[1..];
    forall id ensures id in CallIds(turn) <==> Asks(turn, id) { AsksIsCallId(turn, id); }
    hide Asks, CallIds, RepliedBetween;
    forall k | 0 <= k < |replies| ensures Answering(replies[k], CallIds(turn)) {
      assert replies[k] == block[k + 1];
    }
    forall id | id in CallIds(turn) ensures RepliedBetween(replies, -1, |replies|, id) { RepliedRest(block, 0, id); }
  }

  // It survives the repair, wherever it stands.
  lemma TurnWithRepliesSurvives(a: seq<Message>, block: seq<Message>, b: seq<Message>)
    requires TurnWithReplies(block)
    ensures OnePass(a + block + b) == OnePass(a) + block + OnePass(b)
  {
    hide RepliesOnce, CallIds;
    var turn, replies := block[0], block[1..];
    RepliesOfTurn(block);
    RepliesNone(replies, CallIds(turn));
    if CallIds(turn) == {} {
      assert a + block + b == a + (block + b) && (block + b)[1..] == b && block == [turn];
      PassSplits(a, block + b, Outside);
    } else {
      RepliesComplete(replies, Opened(turn));
      AnsweredBlockSurvives(a, block, b);
    }
  }
}
