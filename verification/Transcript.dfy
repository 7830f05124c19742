// Chat transcripts: the protocol check for tool calls, and the repair that
// deletes messages until the check passes.
module Transcript {
  import opened Rdf

  type Id = string

  datatype Message =
    | Human(id: Option<Id>, content: string)
    | Assistant(id: Option<Id>, calls: seq<Option<Id>>)
    | Tool(id: Option<Id>, callId: Option<Id>)
    | Other(id: Option<Id>)

  // The calls an assistant turn waits for; a call without an id is ignored.
  function CallIds(m: Message): set<Id> {
    if m.Assistant? then set c | c in m.calls && c.Some? && c.value != "" :: c.value else {}
  }

  datatype Kind = OrphanToolResponse | UnresolvedToolCall

  datatype Issue = Issue(kind: Kind, message: Message)

  // Where a left-to-right reading stands: outside a tool-call turn, or inside
  // one, with the replies seen and the calls still unanswered.
  datatype State = Outside | Inside(turn: Message, replies: seq<Message>, pending: set<Id>)

  function Held(st: State): seq<Message> {
    if st.Outside? then [] else [st.turn] + st.replies
  }

  predicate Answers(m: Message, st: State) {
    m.Tool? && st.Inside? && m.callId.Some? && m.callId.value in st.pending
  }

  function Answered(st: State, m: Message): State
    requires Answers(m, st)
  {
    var rest := st.pending - {m.callId.value};
    if rest == {} then Outside else Inside(st.turn, st.replies + [m], rest)
  }

  function Opened(m: Message): State {
    if CallIds(m) == {} then Outside else Inside(m, [], CallIds(m))
  }

  // The first violation of the protocol: a reply nobody waits for, or a turn
  // that is not answered before the next message that is not a reply.
  function Scan(ms: seq<Message>, st: State): Option<Issue> {
    if ms == [] then
      if st.Inside? then Some(Issue(UnresolvedToolCall, st.turn)) else None
    else if Answers(ms[0], st) then Scan(ms[1..], Answered(st, ms[0]))
    else if ms[0].Tool? then Some(Issue(OrphanToolResponse, ms[0]))
    else if st.Inside? then Some(Issue(UnresolvedToolCall, st.turn))
    else Scan(ms[1..], Opened(ms[0]))
  }

  predicate Clean(ms: seq<Message>) {
    Scan(ms, Outside) == None
  }

  // Keep a tool-call turn together with the first reply to each of its calls
  // if all of them come before the next message that is not a reply, and drop
  // the turn and its replies otherwise. A reply nobody waits for is dropped.
  function Pass(ms: seq<Message>, st: State): seq<Message>
    decreases ms, if st.Inside? then 1 else 0
  {
    if ms == [] then []
    else if Answers(ms[0], st) then
      var next := Answered(st, ms[0]);
      if next.Outside? then Held(st) + [ms[0]] + Pass(ms[1..], next) else Pass(ms[1..], next)
    else if ms[0].Tool? then Pass(ms[1..], st)
    else if st.Inside? then Pass(ms, Outside)
    else if Opened(ms[0]).Outside? then [ms[0]] + Pass(ms[1..], Outside)
    else Pass(ms[1..], Opened(ms[0]))
  }

  function OnePass(ms: seq<Message>): seq<Message> {
    Pass(ms, Outside)
  }

  // The check as it is written

  method FindToolTranscriptIssue(messages: seq<Message>) returns (issue: Option<Issue>)
    ensures issue == Scan(messages, Outside)
  {
    var pending: set<Id> := {};
    var pendingTurn: Option<Message> := None;
    ghost var st := Outside;
    for i := 0 to |messages|
      invariant Scan(messages, Outside) == Scan(messages[i..], st)
      invariant st.Inside? <==> pending != {}
      invariant st.Inside? ==> st.pending == pending && pendingTurn == Some(st.turn)
    {
      var m := messages[i];
      assert messages[i..][0] == m && messages[i..][1..] == messages[i + 1..];
      if pending != {} {
        if m.Tool? {
          if m.callId.Some? && m.callId.value in pending {
            pending := pending - {m.callId.value};
            if pending == {} {
              pendingTurn := None;
            }
            st := Answered(st, m);
            continue;
          }
          return Some(Issue(OrphanToolResponse, m));
        }
        return Some(Issue(UnresolvedToolCall, pendingTurn.value));
      }
      if m.Tool? {
        return Some(Issue(OrphanToolResponse, m));
      }
      if !m.Assistant? {
        continue;
      }
      var ids := CallIds(m);
      if ids != {} {
        pending, pendingTurn := ids, Some(m);
      }
      st := Opened(m);
    }
    if pendingTurn.Some? && pending != {} {
      return Some(Issue(UnresolvedToolCall, pendingTurn.value));
    }
    return None;
  }

  // A reminder between the two latest assistant turns: the method walks
  // backwards and stops at the second assistant turn it meets.
  predicate IsRecent(ms: seq<Message>, prefix: string, i: nat, k: nat) {
    && i < k < |ms| && ms[k].Assistant?
    && (forall j :: i <= j < |ms| && j != k ==> !ms[j].Assistant?)
    && ms[i].Human? && prefix <= ms[i].content
  }

  ghost predicate HasRecent(ms: seq<Message>, prefix: string) {
    exists i, k :: IsRecent(ms, prefix, i, k)
  }

  method HasRecentGuardReminder(messages: seq<Message>, prefix: string) returns (found: bool)
    ensures found <==> HasRecent(messages, prefix)
  {
    var seenLatest := false;
    ghost var latest := |messages|;
    var i := |messages|;
    while i > 0
      invariant 0 <= i <= |messages|
      invariant seenLatest ==> i <= latest < |messages| && messages[latest].Assistant?
      invariant forall j :: i <= j < |messages| && (seenLatest ==> j != latest) ==> !messages[j].Assistant?
      invariant forall j, k :: i <= j && IsRecent(messages, prefix, j, k) ==> false
    {
      i := i - 1;
      var m := messages[i];
      if m.Assistant? {
        if seenLatest {
          return false;
        }
        seenLatest := true;
        latest := i;
        continue;
      }
      if !seenLatest {
        continue;
      }
      if m.Human? && prefix <= m.content {
        assert IsRecent(messages, prefix, i, latest);
        return true;
      }
    }
    return false;
  }

  // Deleting offenders one by one equals one pass

  function Without(ms: seq<Message>, id: Id): seq<Message> {
    if ms == [] then []
    else (if ms[0].id == Some(id) then [] else [ms[0]]) + Without(ms[1..], id)
  }

  // Every message has an id, and no two messages share one.
  ghost predicate Distinct(ms: seq<Message>) {
    && (forall i :: 0 <= i < |ms| ==> ms[i].id.Some?)
    && forall i, j :: 0 <= i < j < |ms| ==> ms[i].id != ms[j].id
  }

  lemma {:induction false} WithoutAbsent(ms: seq<Message>, id: Id)
    requires forall i :: 0 <= i < |ms| ==> ms[i].id != Some(id)
    ensures Without(ms, id) == ms
  {
    if ms != [] {
      WithoutAbsent(ms[1..], id);
    }
  }

  lemma {:induction false} WithoutFrom(ms: seq<Message>, id: Id)
    ensures forall i :: 0 <= i < |Without(ms, id)| ==> Without(ms, id)[i] in ms
  {
    if ms != [] {
      WithoutFrom(ms[1..], id);
    }
  }

  lemma {:induction false} WithoutDistinct(ms: seq<Message>, id: Id)
    requires Distinct(ms)
    ensures Distinct(Without(ms, id))
  {
    if ms != [] {
      var rest := Without(ms[1..], id);
      WithoutDistinct(ms[1..], id);
      WithoutFrom(ms[1..], id);
      forall i | 0 <= i < |rest| ensures rest[i].id != ms[0].id {
        var j :| 0 <= j < |ms[1..]| && ms[1..][j] == rest[i];
        assert ms[j + 1] == rest[i];
      }
      DistinctPlus(ms[0], rest);
    }
  }

  lemma DistinctPlus(m: Message, rest: seq<Message>)
    requires Distinct(rest) && m.id.Some? && forall i :: 0 <= i < |rest| ==> rest[i].id != m.id
    ensures Distinct([m] + rest)
  {
  }

  lemma {:induction false} WithoutShrinks(ms: seq<Message>, id: Id, i: nat)
    requires i < |ms| && ms[i].id == Some(id)
    ensures |Without(ms, id)| < |ms|
  {
    if i > 0 {
      WithoutShrinks(ms[1..], id, i - 1);
    }
    WithoutAtMost(ms[1..], id);
  }

  lemma WithoutAtMost(ms: seq<Message>, id: Id)
    ensures |Without(ms, id)| <= |ms|
  {
  }

  // The offender is in the transcript, or it is the turn being answered.
  lemma {:induction false} OffenderIn(ms: seq<Message>, st: State) returns (i: nat)
    requires Scan(ms, st).Some?
    ensures if i < |ms| then Scan(ms, st).value.message == ms[i] else st.Inside? && Scan(ms, st).value.message == st.turn
  {
    if ms == [] {
      i := 0;
    } else if Answers(ms[0], st) {
      var k := OffenderIn(ms[1..], Answered(st, ms[0]));
      i := if k < |ms| - 1 then k + 1 else |ms|;
    } else if ms[0].Tool? {
      i := 0;
    } else if st.Inside? {
      i := |ms|;
    } else {
      var k := OffenderIn(ms[1..], Opened(ms[0]));
      i := if k < |ms| - 1 then k + 1 else 0;
    }
  }

  // Without its turn, the replies to an unresolved turn are dropped as well.
  lemma {:induction false} UnresolvedDropped(ms: seq<Message>, st: State)
    requires st.Inside? && st.turn.id.Some?
    requires forall i :: 0 <= i < |ms| ==> ms[i].id != st.turn.id
    requires Scan(ms, st).Some? && Scan(ms, st).value.message == st.turn
    ensures Pass(ms, st) == Pass(ms, Outside)
  {
    if ms != [] && Answers(ms[0], st) {
      var next := Answered(st, ms[0]);
      assert forall i :: 0 <= i < |ms[1..]| ==> ms[1..][i] == ms[i + 1];
      if next.Outside? {
        var _ := OffenderIn(ms[1..], next);
      } else {
        UnresolvedDropped(ms[1..], next);
      }
    }
  }

  // Deleting the offender does not change what one pass keeps.
  lemma {:induction false} DeletionKeepsPass(ms: seq<Message>, st: State, offender: Message)
    requires Distinct(ms) && Scan(ms, st).Some? && offender == Scan(ms, st).value.message
    requires st.Inside? ==> st.turn.id.Some? && forall i :: 0 <= i < |ms| ==> ms[i].id != st.turn.id
    requires st.Inside? ==> offender != st.turn
    ensures offender.id.Some? && offender in ms
    ensures Pass(Without(ms, offender.id.value), st) == Pass(ms, st)
  {
    var m, rest := ms[0], ms[1..];
    assert forall i :: 0 <= i < |rest| ==> rest[i] == ms[i + 1];
    if !Answers(m, st) && offender == m {
      WithoutAbsent(rest, m.id.value);
      assert Without(ms, m.id.value) == rest;
      if !m.Tool? {
        if Opened(m).Inside? {
          UnresolvedDropped(rest, Opened(m));
        } else {
          var _ := OffenderIn(rest, Outside);
        }
      }
    } else {
      var next := if Answers(m, st) then Answered(st, m) else Opened(m);
      DeletionKeepsPass(rest, next, offender);
      var i :| 0 <= i < |rest| && rest[i] == offender;
      assert ms[i + 1] == offender;
      assert Without(ms, offender.id.value) == [m] + Without(rest, offender.id.value);
    }
  }

  // A clean transcript passes unchanged.
  lemma {:induction false} CleanPasses(ms: seq<Message>, st: State)
    requires Scan(ms, st) == None
    ensures Pass(ms, st) == Held(st) + ms
  {
    if ms != [] {
      assert ms == [ms[0]] + ms[1..];
      if Answers(ms[0], st) {
        CleanPasses(ms[1..], Answered(st, ms[0]));
      } else {
        CleanPasses(ms[1..], Opened(ms[0]));
      }
    }
  }

  // What one pass keeps

  // Kept arises from the messages by dropping replies and tool-call turns only.
  ghost predicate OnlyToolTurnsDropped(kept: seq<Message>, ms: seq<Message>)
    decreases |ms|
  {
    if ms == [] then kept == []
    else
      || (kept != [] && kept[0] == ms[0] && OnlyToolTurnsDropped(kept[1..], ms[1..]))
      || ((ms[0].Tool? || CallIds(ms[0]) != {}) && OnlyToolTurnsDropped(kept, ms[1..]))
  }

  // A turn and the replies it has received so far.
  ghost predicate Receiving(st: State) {
    st.Inside? ==> CallIds(st.turn) != {} && forall i :: 0 <= i < |st.replies| ==> st.replies[i].Tool?
  }

  lemma {:induction false} KeepPrefix(head: seq<Message>, kept: seq<Message>, ms: seq<Message>)
    requires OnlyToolTurnsDropped(kept, ms)
    ensures OnlyToolTurnsDropped(head + kept, head + ms)
  {
    if head == [] {
      assert head + kept == kept && head + ms == ms;
    } else {
      KeepPrefix(head[1..], kept, ms);
      assert (head + kept)[1..] == head[1..] + kept && (head + ms)[1..] == head[1..] + ms;
    }
  }

  lemma {:induction false} DropPrefix(head: seq<Message>, kept: seq<Message>, ms: seq<Message>)
    requires OnlyToolTurnsDropped(kept, ms)
    requires forall i :: 0 <= i < |head| ==> head[i].Tool? || CallIds(head[i]) != {}
    ensures OnlyToolTurnsDropped(kept, head + ms)
  {
    if head == [] {
      assert head + ms == ms;
    } else {
      DropPrefix(head[1..], kept, ms);
      assert (head + ms)[1..] == head[1..] + ms;
    }
  }

  lemma {:induction false} PassOnlyDrops(ms: seq<Message>, st: State)
    requires Receiving(st)
    ensures OnlyToolTurnsDropped(Pass(ms, st), Held(st) + ms)
    decreases ms, if st.Inside? then 1 else 0
  {
    if ms == [] {
      DropPrefix(Held(st), [], []);
    } else if Answers(ms[0], st) {
      PassOnlyDrops(ms[1..], Answered(st, ms[0]));
      ReplyKept(ms[0], ms[1..], st);
      assert [ms[0]] + ms[1..] == ms;
    } else if ms[0].Tool? {
      PassOnlyDrops(ms[1..], st);
      DropFrom(Held(st), ms[0], Pass(ms[1..], st), ms[1..]);
      assert Held(st) + [ms[0]] + ms[1..] == Held(st) + ms;
    } else if st.Inside? {
      PassOnlyDrops(ms, Outside);
      assert Held(Outside) + ms == ms;
      DropPrefix(Held(st), Pass(ms, Outside), ms);
    } else {
      PassOnlyDrops(ms[1..], Opened(ms[0]));
      TurnKept(ms[0], ms[1..]);
      assert Held(st) + ms == ms && [ms[0]] + ms[1..] == ms;
    }
  }

  lemma ReplyKept(m: Message, rest: seq<Message>, st: State)
    requires Answers(m, st) && OnlyToolTurnsDropped(Pass(rest, Answered(st, m)), Held(Answered(st, m)) + rest)
    ensures OnlyToolTurnsDropped(Pass([m] + rest, st), Held(st) + ([m] + rest))
  {
    hide OnlyToolTurnsDropped;
    var next := Answered(st, m);
    assert ([m] + rest)[1..] == rest;
    assert Held(st) + ([m] + rest) == Held(st) + [m] + rest;
    if next.Outside? {
      assert Held(next) + rest == rest;
      KeepPrefix(Held(st) + [m], Pass(rest, next), rest);
    } else {
      assert Held(next) == Held(st) + [m];
    }
  }

  lemma TurnKept(m: Message, rest: seq<Message>)
    requires !m.Tool? && OnlyToolTurnsDropped(Pass(rest, Opened(m)), Held(Opened(m)) + rest)
    ensures OnlyToolTurnsDropped(Pass([m] + rest, Outside), [m] + rest)
  {
    hide OnlyToolTurnsDropped;
    assert ([m] + rest)[1..] == rest;
    if Opened(m).Outside? {
      assert Held(Outside) + rest == rest;
      KeepPrefix([m], Pass(rest, Outside), rest);
    } else {
      assert Held(Opened(m)) == [m];
    }
  }

  // Dropping one more reply in the middle.
  lemma {:induction false} DropFrom(head: seq<Message>, m: Message, kept: seq<Message>, ms: seq<Message>)
    requires m.Tool? && OnlyToolTurnsDropped(kept, head + ms)
    ensures OnlyToolTurnsDropped(kept, head + [m] + ms)
    decreases |head|
  {
    var all := head + [m] + ms;
    if head == [] {
      assert all[1..] == head + ms;
    } else {
      assert (head + ms)[1..] == head[1..] + ms && all[1..] == head[1..] + [m] + ms;
      if kept != [] && kept[0] == head[0] && OnlyToolTurnsDropped(kept[1..], (head + ms)[1..]) {
        DropFrom(head[1..], m, kept[1..], ms);
      } else {
        DropFrom(head[1..], m, kept, ms);
      }
    }
  }

  // Reading the held messages leads from the outside to this state.
  ghost predicate Reached(st: State) {
    forall ms :: Scan(Held(st) + ms, Outside) == Scan(ms, st)
  }

  lemma ReachedOpened(m: Message)
    requires !m.Tool?
    ensures Reached(Opened(m))
  {
    forall ms ensures Scan(Held(Opened(m)) + ms, Outside) == Scan(ms, Opened(m)) {
      if Opened(m).Inside? {
        assert (Held(Opened(m)) + ms)[1..] == ms;
      } else {
        assert Held(Opened(m)) + ms == ms;
      }
    }
  }

  lemma ReachedAnswered(st: State, m: Message)
    requires Reached(st) && Answers(m, st)
    ensures Answered(st, m).Inside? ==> Reached(Answered(st, m))
    ensures Answered(st, m).Outside? ==> forall ms :: Scan(Held(st) + [m] + ms, Outside) == Scan(ms, Outside)
  {
    forall ms ensures Scan(Held(st) + [m] + ms, Outside) == Scan(ms, Answered(st, m)) {
      assert Held(st) + [m] + ms == Held(st) + ([m] + ms);
      assert ([m] + ms)[1..] == ms;
    }
    if Answered(st, m).Inside? {
      assert Held(Answered(st, m)) == Held(st) + [m];
    }
  }

  // What one pass keeps is clean.
  lemma {:induction false} PassIsClean(ms: seq<Message>, st: State)
    requires Reached(st)
    ensures Clean(Pass(ms, st))
    decreases ms, if st.Inside? then 1 else 0
  {
    if ms != [] {
      var m, rest := ms[0], ms[1..];
      if Answers(m, st) {
        ReachedAnswered(st, m);
        ReachedOutside();
        PassIsClean(rest, Answered(st, m));
      } else if m.Tool? {
        PassIsClean(rest, st);
      } else if st.Inside? {
        ReachedOutside();
        PassIsClean(ms, Outside);
      } else {
        ReachedOpened(m);
        PassIsClean(rest, Opened(m));
        assert ([m] + Pass(rest, Outside))[1..] == Pass(rest, Outside);
      }
    }
  }

  lemma ReachedOutside()
    ensures Reached(Outside)
  {
    forall ms: seq<Message> ensures Scan(Held(Outside) + ms, Outside) == Scan(ms, Outside) {
      assert Held(Outside) + ms == ms;
    }
  }

  // One pass is idempotent, and it is the identity exactly on clean transcripts.
  lemma OnePassIdempotent(ms: seq<Message>)
    ensures Clean(OnePass(ms)) && OnePass(OnePass(ms)) == OnePass(ms)
    ensures OnePass(ms) == ms <==> Clean(ms)
    ensures OnlyToolTurnsDropped(OnePass(ms), ms)
  {
    ReachedOutside();
    PassIsClean(ms, Outside);
    CleanPasses(OnePass(ms), Outside);
    if Clean(ms) {
      CleanPasses(ms, Outside);
    }
    PassOnlyDrops(ms, Outside);
    assert Held(Outside) + ms == ms;
  }

  // A message that is not a reply starts afresh.
  lemma {:induction false} PassSplits(a: seq<Message>, b: seq<Message>, st: State)
    requires b != [] && !b[0].Tool?
    ensures Pass(a + b, st) == Pass(a, st) + Pass(b, Outside)
    decreases a, if st.Inside? then 1 else 0
  {
    if a == [] {
      assert a + b == b;
    } else {
      assert (a + b)[0] == a[0] && (a + b)[1..] == a[1..] + b;
      if Answers(a[0], st) {
        PassSplits(a[1..], b, Answered(st, a[0]));
      } else if a[0].Tool? {
        PassSplits(a[1..], b, st);
      } else if st.Inside? {
        PassSplits(a, b, Outside);
      } else {
        PassSplits(a[1..], b, Opened(a[0]));
      }
    }
  }

  // Replies that answer every pending call, and nothing after that.
  ghost predicate Completes(replies: seq<Message>, st: State) {
    && replies != [] && Answers(replies[0], st)
    && var next := Answered(st, replies[0]);
      if |replies| == 1 then next.Outside? else next.Inside? && Completes(replies[1..], next)
  }

  // A turn followed by exactly its replies.
  ghost predicate AnsweredBlock(block: seq<Message>) {
    block != [] && !block[0].Tool? && Completes(block[1..], Opened(block[0]))
  }

  lemma {:induction false} CompletesPasses(replies: seq<Message>, st: State, b: seq<Message>)
    requires Completes(replies, st)
    ensures Pass(replies + b, st) == Held(st) + replies + Pass(b, Outside)
  {
    assert (replies + b)[0] == replies[0] && (replies + b)[1..] == replies[1..] + b;
    var next := Answered(st, replies[0]);
    if |replies| == 1 {
      assert replies[1..] + b == b;
    } else {
      CompletesPasses(replies[1..], next, b);
      assert Held(next) == Held(st) + [replies[0]];
      assert Held(st) + [replies[0]] + replies[1..] == Held(st) + replies;
    }
  }

  // A fully answered block survives, wherever it stands.
  lemma AnsweredBlockSurvives(a: seq<Message>, block: seq<Message>, b: seq<Message>)
    requires AnsweredBlock(block)
    ensures OnePass(a + block + b) == OnePass(a) + block + OnePass(b)
  {
    assert a + block + b == a + (block + b);
    PassSplits(a, block + b, Outside);
    assert (block + b)[1..] == block[1..] + b;
    CompletesPasses(block[1..], Opened(block[0]), b);
    assert Held(Opened(block[0])) + block[1..] == block;
  }

  // The repair loop

  datatype RepairError = NoStableId | CapExceeded

  datatype Repair = Repair(
    messages: seq<Message>,
    removed: seq<Id>,
    reminder: Option<Message>,
    systemReminder: Option<string>,
    kinds: seq<Kind>)

  // A reminder family: every text of the family starts with its prefix.
  datatype Family = Family(prefix: string, text: string)

  function Appended(reminder: Option<Message>): seq<Message> {
    if reminder.Some? then [reminder.value] else []
  }

  ghost predicate EndsInReply(ms: seq<Message>) {
    ms != [] && ms[|ms| - 1].Tool?
  }

  ghost predicate EndsInReminder(ms: seq<Message>, family: Family) {
    ms != [] && ms[|ms| - 1].Human? && family.prefix <= ms[|ms| - 1].content
  }

  // The messages without these ids, in their order.
  ghost function Keeping(ms: seq<Message>, gone: seq<Id>): seq<Message> {
    if ms == [] then []
    else (if ms[0].id.Some? && ms[0].id.value in gone then [] else [ms[0]]) + Keeping(ms[1..], gone)
  }

  lemma {:induction false} KeepingLess(ms: seq<Message>, gone: seq<Id>, id: Id)
    ensures Without(Keeping(ms, gone), id) == Keeping(ms, gone + [id])
    ensures forall m :: m in Keeping(ms, gone) ==> m.id == None || m.id.value !in gone
  {
    if ms != [] {
      KeepingLess(ms[1..], gone, id);
      var rest := Keeping(ms[1..], gone);
      assert ([ms[0]] + rest)[1..] == rest && [] + rest == rest;
    }
  }

  lemma {:induction false} KeepingAll(ms: seq<Message>)
    ensures Keeping(ms, []) == ms
  {
    if ms != [] {
      KeepingAll(ms[1..]);
      assert [ms[0]] + ms[1..] == ms;
    }
  }

  lemma KeepingNone(ms: seq<Message>, gone: seq<Id>, m: Message)
    requires m in Keeping(ms, gone)
    ensures m.id.Some? ==> m.id.value !in gone
  {
    if m.id.Some? {
      KeepingLess(ms, gone, m.id.value);
    }
  }

  // The round with this number deletes the first offender of what the earlier
  // ones have left.
  ghost predicate Deletes(messages: seq<Message>, removed: seq<Id>, kinds: seq<Kind>, round: nat)
    requires round < |removed| == |kinds|
  {
    var issue := Scan(Keeping(messages, removed[..round]), Outside);
    issue.Some? && issue.value.kind == kinds[round] && issue.value.message.id == Some(removed[round])
  }

  ghost predicate Rounds(messages: seq<Message>, removed: seq<Id>, kinds: seq<Kind>) {
    |removed| == |kinds| && forall i :: 0 <= i < |removed| ==> Deletes(messages, removed, kinds, i)
  }

  lemma NoRound(messages: seq<Message>)
    ensures Rounds(messages, [], [])
  {
  }

  lemma NextDeletes(messages: seq<Message>, removed: seq<Id>, kinds: seq<Kind>, issue: Issue)
    requires Rounds(messages, removed, kinds)
    requires Scan(Keeping(messages, removed), Outside) == Some(issue) && issue.message.id.Some?
    ensures Rounds(messages, removed + [issue.message.id.value], kinds + [issue.kind])
  {
    var ids, next := removed + [issue.message.id.value], kinds + [issue.kind];
    forall i | 0 <= i < |ids| ensures Deletes(messages, ids, next, i) {
      assert ids[..i] == removed[..i];
      assert i < |removed| ==> Deletes(messages, removed, kinds, i);
      assert removed[..|removed|] == removed;
    }
  }

  // After these rounds the first offender has no id to delete it by.
  ghost predicate Stuck(messages: seq<Message>, removed: seq<Id>) {
    var issue := Scan(Keeping(messages, removed), Outside);
    issue.Some? && issue.value.message.id == None
  }

  ghost predicate Fails(messages: seq<Message>) {
    exists removed, kinds :: Rounds(messages, removed, kinds) && Stuck(messages, removed)
  }

  // The rounds are determined by the transcript, one after the other.
  lemma {:induction false} RoundsAgree(messages: seq<Message>, removed: seq<Id>, kinds: seq<Kind>, other: seq<Id>,
      otherKinds: seq<Kind>, n: nat)
    requires Rounds(messages, removed, kinds) && Rounds(messages, other, otherKinds)
    requires n <= |removed| && n <= |other|
    ensures removed[..n] == other[..n] && kinds[..n] == otherKinds[..n]
  {
    if n > 0 {
      RoundsAgree(messages, removed, kinds, other, otherKinds, n - 1);
      hide Keeping, Scan;
      assert Deletes(messages, removed, kinds, n - 1) && Deletes(messages, other, otherKinds, n - 1);
    }
  }

  lemma Offends(messages: seq<Message>, removed: seq<Id>, kinds: seq<Kind>, i: nat)
    requires Rounds(messages, removed, kinds) && i < |removed|
    ensures !Clean(Keeping(messages, removed[..i])) && !Stuck(messages, removed[..i])
  {
    assert Deletes(messages, removed, kinds, i);
  }

  // So they end in one way: with these deletions, or stuck.
  lemma DeletionsUnique(messages: seq<Message>, removed: seq<Id>, kinds: seq<Kind>, other: seq<Id>,
      otherKinds: seq<Kind>)
    requires Rounds(messages, removed, kinds) && Rounds(messages, other, otherKinds)
    requires Clean(Keeping(messages, removed))
    ensures !Stuck(messages, other)
    ensures Clean(Keeping(messages, other)) ==> other == removed && otherKinds == kinds
  {
    hide Keeping;
    var n := if |removed| <= |other| then |removed| else |other|;
    RoundsAgree(messages, removed, kinds, other, otherKinds, n);
    assert removed[..|removed|] == removed && other[..|other|] == other;
    assert kinds[..|kinds|] == kinds && otherKinds[..|otherKinds|] == otherKinds;
    if |removed| < |other| {
      Offends(messages, other, otherKinds, n);
    } else if |other| < |removed| {
      Offends(messages, removed, kinds, n);
    }
  }

  // Delete the first offender until none is left. Each round deletes at least
  // one message, so the iteration cap is never reached.
  method DeleteOffenders(messages: seq<Message>) returns (r: Result<(seq<Message>, seq<Id>, seq<Kind>), RepairError>)
    ensures r.Err? ==> r.error == NoStableId && Fails(messages) && exists m :: m in messages && m.id == None
    ensures r.Ok? ==> Clean(r.value.0) && (r.value.1 == [] ==> r.value.0 == messages)
    ensures r.Ok? ==> r.value.0 == Keeping(messages, r.value.1)
    ensures r.Ok? && r.value.1 != [] ==> !Clean(messages)
    ensures r.Ok? ==> Rounds(messages, r.value.1, r.value.2)
    ensures Distinct(messages) ==> r.Ok? && r.value.0 == OnePass(messages)
  {
    hide Rounds, Keeping;
    var working, removed, kinds := messages, [], [];
    NoRound(messages);
    KeepingAll(messages);
    for round := 0 to |messages| + 5
      invariant round + |working| <= |messages|
      invariant forall m :: m in working ==> m in messages
      invariant removed == [] ==> working == messages
      invariant working == Keeping(messages, removed)
      invariant removed != [] ==> !Clean(messages)
      invariant Rounds(messages, removed, kinds)
      invariant Distinct(messages) ==> Distinct(working) && OnePass(working) == OnePass(messages)
    {
      var issue := FindToolTranscriptIssue(working);
      if issue == None {
        OnePassIdempotent(working);
        return Ok((working, removed, kinds));
      }
      var offender := issue.value.message;
      var i := OffenderIn(working, Outside);
      assert working[i] in working;
      if offender.id == None {
        assert Stuck(messages, removed);
        return Err(NoStableId);
      }
      if Distinct(messages) {
        DeletionKeepsPass(working, Outside, offender);
        WithoutDistinct(working, offender.id.value);
      }
      WithoutShrinks(working, offender.id.value, i);
      WithoutFrom(working, offender.id.value);
      KeepingLess(messages, removed, offender.id.value);
      assert offender in working;
      KeepingNone(messages, removed, offender);
      NextDeletes(messages, removed, kinds, issue.value);
      working := Without(working, offender.id.value);
      kinds := kinds + [issue.value.kind];
      if offender.id.value !in removed {
        removed := removed + [offender.id.value];
      }
    }
    assert false;
    return Err(CapExceeded);
  }

  // Repair, and remind the model unless it was reminded already. A reminder
  // never directly follows a reply: it goes to the system prompt instead.
  method RepairToolTranscript(messages: seq<Message>, family: Family) returns (r: Result<Repair, RepairError>)
    requires family.prefix <= family.text
    ensures r.Err? ==> r.error == NoStableId && Fails(messages) && exists m :: m in messages && m.id == None
    ensures r.Ok? ==> Clean(r.value.messages) && (r.value.removed == [] <==> Clean(messages))
    ensures r.Ok? && r.value.reminder.Some? ==>
      && |r.value.messages| > 0 && r.value.messages[|r.value.messages| - 1] == r.value.reminder.value
      && !EndsInReply(r.value.messages[..|r.value.messages| - 1])
    ensures r.Ok? ==> r.value.messages == Keeping(messages, r.value.removed) + Appended(r.value.reminder)
    ensures Distinct(messages) ==> r.Ok? && r.value.messages == OnePass(messages) + Appended(r.value.reminder)
    ensures r.Ok? ==> Rounds(messages, r.value.removed, r.value.kinds)
    ensures r.Ok? && r.value.removed != [] ==>
      var base := Keeping(messages, r.value.removed);
      var reminded := EndsInReminder(base, family) || HasRecent(base, family.prefix);
      && (r.value.reminder == if !reminded && !EndsInReply(base) then Some(Human(None, family.text)) else None)
      && (r.value.systemReminder == if !reminded && EndsInReply(base) then Some(family.text) else None)
    ensures r.Ok? && r.value.removed == [] ==>
      r.value.messages == messages && r.value.reminder == None && r.value.systemReminder == None
  {
    hide Rounds, Keeping, Fails;
    var deleted := DeleteOffenders(messages);
    if deleted.Err? {
      return Err(deleted.error);
    }
    var (working, removed, kinds) := deleted.value;
    var reminder, system := None, None;
    if removed != [] {
      var last := working != [] && working[|working| - 1].Human? && family.prefix <= working[|working| - 1].content;
      var recent := HasRecentGuardReminder(working, family.prefix);
      if !last && !recent {
        if working != [] && working[|working| - 1].Tool? {
          system := Some(family.text);
        } else {
          reminder := Some(Human(None, family.text));
          CleanAppend(working, reminder.value, Outside);
          working := working + [reminder.value];
        }
      }
    }
    return Ok(Repair(working, removed, reminder, system, kinds));
  }

  lemma {:induction false} CleanAppend(ms: seq<Message>, m: Message, st: State)
    requires Scan(ms, st) == None && m.Human?
    ensures Scan(ms + [m], st) == None
  {
    if ms != [] {
      assert (ms + [m])[1..] == ms[1..] + [m];
      CleanAppend(ms[1..], m, if Answers(ms[0], st) then Answered(st, ms[0]) else Opened(ms[0]));
    }
  }
}
