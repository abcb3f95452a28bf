/** Replacing a bound message id, which a verified multi-message turn may do: exactly when it breaks the parent
    chain of a chat, and runs in which it does. */
module ChainAdvance {
  import opened Tables
  import opened DisplayBlocks
  import opened ToolCalls
  import opened Captures
  import opened Replies
  import opened ReplyRuns
  import R = Responses
  import AW = AnswerWriters

  // ---------------------------------------------------------------- a reply's own message

  /** Some later turn of the chat of row k has left the queue. */
  ghost predicate LaterBound(replies: seq<Reply>, k: nat)
    requires k < |replies|
  {
    exists j | k < j < |replies| && SameChat(replies[k], replies[j]) :: Turn(replies[j]) && !replies[j].status.Queued?
  }

  /** The turn right after row k, when some later turn of the chat has left the queue. */
  lemma NextBoundTurn(replies: seq<Reply>, k: nat, j: nat) returns (next: nat)
    requires Shape(replies) && k < j < |replies| && SameChat(replies[k], replies[j])
    requires Turn(replies[k]) && Turn(replies[j]) && !replies[j].status.Queued?
    ensures k < next <= j && SameChat(replies[k], replies[next]) && Turn(replies[next])
    ensures !replies[next].status.Queued? && LastTurn(replies, next, replies[k].sendId) == Some(k)
  {
    next := k + 1;
    while !(SameChat(replies[k], replies[next]) && Turn(replies[next]))
      invariant k < next <= j
      invariant forall i :: k < i < next && SameChat(replies[k], replies[i]) ==> !Turn(replies[i])
      decreases j - next
    {
      next := next + 1;
    }
  }

  lemma ReplacedMessage(replies: seq<Reply>, after: seq<Reply>, responses: R.Table, k: nat)
    requires Shape(replies) && Chain(replies, responses)
    requires |after| == |replies| && k < |replies|
    requires Turn(replies[k]) && Turn(after[k]) && after[k].messageId != replies[k].messageId
    requires forall i :: 0 <= i < |replies| && i != k ==> after[i] == replies[i]
    requires Keeps(replies[k], after[k])
    ensures Chain(after, responses) <==> !LaterBound(replies, k)
  {
    var send := replies[k].sendId;
    if !LaterBound(replies, k) {
      forall j | 0 <= j < |after| && Turn(after[j]) && !after[j].status.Queued? ensures Chained(after, responses, j) {
        assert Chained(replies, responses, j);
        assert j <= k || after[j].sendId != send;
        PreviousIsStable(replies, after, j, after[j].sendId, responses[after[j].sendId].messageId);
      }
    } else {
      var j :| k < j < |replies| && SameChat(replies[k], replies[j]) && Turn(replies[j]) && !replies[j].status.Queued?;
      var next := NextBoundTurn(replies, k, j);
      assert Chained(replies, responses, next);
      assert LastTurn(after, next, send) == Some(k);
      assert !Chained(after, responses, next);
    }
  }

  /** What the page read must show and the store must hold for a reply's bound message id to be replaced. */
  predicate ReplyAdvances(env: Env, replies: seq<Reply>, responses: R.Table, k: nat, c: Capture)
    requires k < |replies|
  {
    var r := replies[k];
    && RecoveryTarget(r, c) && VerifiedParent(replies, responses, r) && R.Differs(r.messageId, c.messageId)
    && (|Take(c.text, MAX_CHARS)| >= |env.visible(r.saved)| || c.toolCalls != [] || c.verifiedGenerating)
  }

  lemma RecoverReplyMoves(env: Env, replies: seq<Reply>, responses: R.Table, k: nat, c: Capture, at: Time)
    requires k < |replies|
    ensures var r := replies[k];
            var after := RecoverRow(env, r, c, VerifiedParent(replies, responses, r), at);
            if ReplyAdvances(env, replies, responses, k, c)
            then Turn(r) && Turn(after) && after.messageId != r.messageId
            else !R.Differs(r.messageId, c.messageId) || after == r
  {
  }

  /** A page read of a reply keeps the parent chain, unless it replaces a bound message id that a later turn of
      the chat already answers. */
  lemma AdvanceBreaksChainIff(
      env: Env, replies: seq<Reply>, responses: R.Table, replyId: string, c: Capture, at: Time)
    requires Shape(replies) && Chain(replies, responses)
    ensures var k := Find(replies, replyId);
            Chain(Apply(env, replies, responses, RecoverReply(replyId, c), at), responses) <==>
              !(k < |replies| && ReplyAdvances(env, replies, responses, k, c) && LaterBound(replies, k))
  {
    var k := Find(replies, replyId);
    var op := RecoverReply(replyId, c);
    if k < |replies| && R.Differs(replies[k].messageId, c.messageId) {
      var verified := VerifiedParent(replies, responses, replies[k]);
      var after := replies[k := RecoverRow(env, replies[k], c, verified, at)];
      assert Apply(env, replies, responses, op, at) == after;
      RecoverReplyMoves(env, replies, responses, k, c, at);
      if ReplyAdvances(env, replies, responses, k, c) {
        ApplyRowKeeps(env, replies[k], RecoverHistorical(c, verified), at);
        ReplacedMessage(replies, after, responses, k);
      } else {
        assert after == replies;
      }
    } else {
      ChainIsKept(env, replies, responses, op, at);
    }
  }

  // ---------------------------------------------------------------- the original's message

  /** What replaces the bound message id of an original. */
  predicate OriginalAdvances(env: Env, r: R.Response, op: R.RowOp, at: Time) {
    match op
    case Write(owner, c, allowAdvance) =>
      R.Leased(r, owner, at) && !R.Foreign(r, c, allowAdvance) && R.Differs(r.messageId, c.messageId)
    case RecoverHistorical(c) =>
      var offered := Take(AW.OrElse(env.display(env.mergeBlocks(r.saved.blocks, c.displayBlocks)), c.text), MAX_CHARS);
      R.RecoveryTarget(r, c) && R.Differs(r.messageId, c.messageId) &&
      (|offered| >= |env.visible(r.saved)| || c.toolCalls != [] || c.verifiedGenerating)
    case _ => false
  }

  lemma OriginalMovesIff(env: Env, r: R.Response, op: R.RowOp, at: Time)
    requires r.messageId != ""
    ensures R.ApplyRow(env, r, op, at).messageId != r.messageId <==> OriginalAdvances(env, r, op, at)
  {
    if !R.Advances(r, op) {
      R.MessageIdIsStable(env, r, op, at);
    }
  }

  /** Some reply of this chat has left the queue. */
  ghost predicate HasBound(replies: seq<Reply>, send: string) {
    exists j | 0 <= j < |replies| && replies[j].sendId == send :: Turn(replies[j]) && !replies[j].status.Queued?
  }

  lemma FirstTurn(replies: seq<Reply>, send: string, j: nat) returns (first: nat)
    requires Shape(replies) && j < |replies| && replies[j].sendId == send && Turn(replies[j]) &&
             !replies[j].status.Queued?
    ensures first <= j && replies[first].sendId == send && Turn(replies[first]) && !replies[first].status.Queued?
    ensures LastTurn(replies, first, send) == None
  {
    first := 0;
    while !(replies[first].sendId == send && Turn(replies[first]))
      invariant first <= j
      invariant forall i :: 0 <= i < first && replies[i].sendId == send ==> !Turn(replies[i])
      decreases j - first
    {
      first := first + 1;
    }
    assert first < j ==> SameChat(replies[first], replies[j]);
  }

  lemma ReplacedOriginal(replies: seq<Reply>, responses: R.Table, after: R.Table, id: string)
    requires Shape(replies) && Chain(replies, responses) && id in responses && id in after
    requires forall i :: i in responses && i != id ==> i in after && after[i] == responses[i]
    requires after[id].messageId != responses[id].messageId
    ensures Chain(replies, after) <==> !HasBound(replies, id)
  {
    if HasBound(replies, id) {
      var j :| 0 <= j < |replies| && replies[j].sendId == id && Turn(replies[j]) && !replies[j].status.Queued?;
      var first := FirstTurn(replies, id, j);
      assert Chained(replies, responses, first);
      assert !Chained(replies, after, first);
    } else {
      forall j | 0 <= j < |replies| && Turn(replies[j]) && !replies[j].status.Queued?
        ensures Chained(replies, after, j)
      {
        assert Chained(replies, responses, j);
      }
    }
  }

  lemma UnmovedKeepsChain(env: Env, replies: seq<Reply>, responses: R.Table, id: string, op: R.RowOp, at: Time)
    requires Chain(replies, responses) && id in responses
    requires R.ApplyRow(env, responses[id], op, at).messageId == responses[id].messageId
    ensures Chain(replies, R.Apply(env, responses, R.One(id, op), at))
  {
    var after := R.Apply(env, responses, R.One(id, op), at);
    assert after == responses[id := R.ApplyRow(env, responses[id], op, at)];
    forall j | 0 <= j < |replies| && Turn(replies[j]) && !replies[j].status.Queued? ensures Chained(replies, after, j) {
      assert Chained(replies, responses, j);
      if replies[j].sendId == id {
        R.ConversationIdIsStable(env, responses[id], op, at);
      }
    }
  }

  /** A write to an original keeps the parent chain, unless it replaces a bound message id that some reply of the
      chat already answers. */
  lemma OriginalAdvanceBreaksChainIff(
      env: Env, replies: seq<Reply>, responses: R.Table, id: string, op: R.RowOp, at: Time)
    requires Shape(replies) && Chain(replies, responses) && id in responses
    ensures Chain(replies, R.Apply(env, responses, R.One(id, op), at)) <==>
              !(OriginalAdvances(env, responses[id], op, at) && HasBound(replies, id))
  {
    var after := R.Apply(env, responses, R.One(id, op), at);
    assert after == responses[id := R.ApplyRow(env, responses[id], op, at)];
    if HasBound(replies, id) {
      var j :| 0 <= j < |replies| && replies[j].sendId == id && Turn(replies[j]) && !replies[j].status.Queued?;
      assert Chained(replies, responses, j);
      OriginalMovesIff(env, responses[id], op, at);
      if OriginalAdvances(env, responses[id], op, at) {
        ReplacedOriginal(replies, responses, after, id);
      } else {
        UnmovedKeepsChain(env, replies, responses, id, op, at);
      }
    } else {
      forall j | 0 <= j < |replies| && Turn(replies[j]) && !replies[j].status.Queued?
        ensures Chained(replies, after, j)
      {
        assert Chained(replies, responses, j);
      }
    }
  }

  // ---------------------------------------------------------------- runs that break the chain

  /** A finished answer that replies can be attached to; an interrupted one may still be recovered. */
  function Answered(status: R.Status): R.Table {
    map["a" := R.NewResponse("hello", "", 1.0).(status := status, conversationId := "c", messageId := "m")]
  }

  function First(): Reply { NewReply("r1", "a", "c", "m", "one", "", Prepared, false, 1.0) }

  /** The first reply after it was accepted and its capture was given up. */
  function Interrupted(): Reply {
    First().(status := Status.Interrupted, messageId := "n", responseParentId := "m", acceptedAt := 1.0,
             deadline := 9.0)
  }

  function Second(): Reply { NewReply("r2", "a", "c", "n", "two", "", Prepared, false, 1.0) }

  /** A page that shows the turn under a newer message id. */
  function NewerPage(messageId: string, parentId: Option<string>, was: string): Capture {
    Capture(Dom, Partial, "hi", Some("c"), Some(messageId), parentId, None, [], true, [], [was])
  }

  lemma RunTwo(env: Env, w: World, a: Event, b: Event, rest: seq<Event>)
    ensures Run(env, w, [a, b] + rest) == Run(env, Step(env, Step(env, w, a), b), rest)
  {
    assert ([a, b] + rest)[1..] == [b] + rest && ([b] + rest)[1..] == rest;
  }

  lemma FirstPrepared(env: Env, w: World)
    requires w == Start(1.0, Answered(R.Completed)) || w == Start(1.0, Answered(R.Status.Interrupted))
    ensures Step(env, w, WriteReplies(Prepare("a", Intent("r1", "c", "m", "one")))) == w.(replies := [First()])
  {
  }

  lemma FirstClaimed(env: Env, w: World)
    requires w.now == 1.0 && w.replies == [First()] && w.threads == []
    ensures Step(env, Step(env, w, Launch("r1", "tab")), ClaimReply(0, 9.0, true)) ==
              w.(threads := [Thread("r1", "tab", Claimed)],
                 replies := [First().(status := Dispatching, owner := "tab", deadline := 9.0)])
  {
    assert Find(w.replies, "r1") == 0;
  }

  lemma FirstInterrupted(env: Env, w: World)
    requires w.now == 1.0 && w.replies == [First().(status := Dispatching, owner := "tab", deadline := 9.0)]
    ensures Step(env, Step(env, w, WriteReplies(One("r1", AcceptMessage("tab", "c", "m", "n", "m")))),
                 WriteReplies(One("r1", Finish("tab", false)))) == w.(replies := [Interrupted()])
  {
    assert Find(w.replies, "r1") == 0;
    var accepted := w.replies[0].(status := Accepted, messageId := "n", responseParentId := "m", acceptedAt := 1.0);
    assert Step(env, w, WriteReplies(One("r1", AcceptMessage("tab", "c", "m", "n", "m")))) == w.(replies := [accepted]);
    assert Find([accepted], "r1") == 0;
  }

  lemma SecondPrepared(env: Env, w: World)
    requires w.now == 1.0 && w.replies == [Interrupted()] && w.responses == Answered(R.Completed)
    ensures Step(env, w, WriteReplies(Prepare("a", Intent("r2", "c", "n", "two")))) ==
              w.(replies := [Interrupted(), Second()])
  {
    assert Find(w.replies, "r2") == 1;
    assert Walk(w.replies, 0, "a", "c", "m") == Some("m");
    assert Walk(w.replies, 1, "a", "c", "m") == Some("n");
  }

  lemma TwoAreChained(replies: seq<Reply>)
    requires replies == [Interrupted(), Second()]
    ensures Shape(replies) && Chain(replies, Answered(R.Completed)) && LaterBound(replies, 0)
    ensures Find(replies, "r1") == 0 && VerifiedParent(replies, Answered(R.Completed), replies[0])
  {
    assert LastTurn(replies, 0, "a") == None && LastTurn(replies, 1, "a") == Some(0);
    assert Chained(replies, Answered(R.Completed), 0) && Chained(replies, Answered(R.Completed), 1);
    assert replies[1].sendId == "a" && Turn(replies[1]) && SameChat(replies[0], replies[1]);
  }

  lemma SecondIsOrphaned(env: Env, w: World)
    requires w.replies == [Interrupted(), Second()] && w.responses == Answered(R.Completed)
    ensures var after := Step(env, w, WriteReplies(RecoverReply("r1", NewerPage("n2", Some("m"), "n"))));
            !Chain(after.replies, after.responses)
  {
    TwoAreChained(w.replies);
    AdvanceBreaksChainIff(env, w.replies, w.responses, "r1", NewerPage("n2", Some("m"), "n"), w.now);
  }

  lemma UnrollAdvance(env: Env, w0: World, w1: World, w3: World, w5: World, w6: World, e0: Event, e1: Event, e2: Event,
                      e3: Event, e4: Event, e5: Event, e6: Event)
    requires Step(env, w0, e0) == w1 && Step(env, Step(env, w1, e1), e2) == w3
    requires Step(env, Step(env, w3, e3), e4) == w5 && Step(env, w5, e5) == w6
    ensures Run(env, w0, [e0, e1, e2, e3, e4, e5, e6]) == Step(env, w6, e6)
  {
    var w2 := Step(env, w1, e1);
    var w4 := Step(env, w3, e3);
    RunTwo(env, w0, e0, e1, [e2, e3, e4, e5, e6]);
    RunTwo(env, w2, e2, e3, [e4, e5, e6]);
    RunTwo(env, w4, e4, e5, [e6]);
    assert [e0, e1] + [e2, e3, e4, e5, e6] == [e0, e1, e2, e3, e4, e5, e6];
    assert [e2, e3] + [e4, e5, e6] == [e2, e3, e4, e5, e6] && [e4, e5] + [e6] == [e4, e5, e6];
    assert [e6][1..] == [];
  }

  /** A reply is interrupted, the next one is attached to it, and then a page shows the first one under another
      message id of the same turn. */
  lemma AdvanceExample(env: Env)
    ensures var events := [WriteReplies(Prepare("a", Intent("r1", "c", "m", "one"))), Launch("r1", "tab"),
                           ClaimReply(0, 9.0, true), WriteReplies(One("r1", AcceptMessage("tab", "c", "m", "n", "m"))),
                           WriteReplies(One("r1", Finish("tab", false))),
                           WriteReplies(Prepare("a", Intent("r2", "c", "n", "two"))),
                           WriteReplies(RecoverReply("r1", NewerPage("n2", Some("m"), "n")))];
            var w := Run(env, Start(1.0, Answered(R.Completed)), events);
            !Chain(w.replies, w.responses)
  {
    var w0 := Start(1.0, Answered(R.Completed));
    var e0, e1, e2 := WriteReplies(Prepare("a", Intent("r1", "c", "m", "one"))), Launch("r1", "tab"),
        ClaimReply(0, 9.0, true);
    var e3 := WriteReplies(One("r1", AcceptMessage("tab", "c", "m", "n", "m")));
    var e4 := WriteReplies(One("r1", Finish("tab", false)));
    var e5 := WriteReplies(Prepare("a", Intent("r2", "c", "n", "two")));
    var e6 := WriteReplies(RecoverReply("r1", NewerPage("n2", Some("m"), "n")));
    FirstPrepared(env, w0);
    var w1 := w0.(replies := [First()]);
    FirstClaimed(env, w1);
    var w3 := w1.(threads := [Thread("r1", "tab", Claimed)],
                  replies := [First().(status := Dispatching, owner := "tab", deadline := 9.0)]);
    FirstInterrupted(env, w3);
    SecondPrepared(env, w3.(replies := [Interrupted()]));
    SecondIsOrphaned(env, w3.(replies := [Interrupted(), Second()]));
    UnrollAdvance(env, w0, w1, w3, w3.(replies := [Interrupted()]), w3.(replies := [Interrupted(), Second()]),
                  e0, e1, e2, e3, e4, e5, e6);
  }

  lemma FirstIsOrphaned(env: Env, w: World)
    requires w.now == 1.0 && w.replies == [First()] && w.responses == Answered(R.Status.Interrupted)
    ensures var after := Step(env, w, WriteResponses(R.One("a", R.RecoverHistorical(NewerPage("m2", None, "m")))));
            !Chain(after.replies, after.responses)
  {
    assert LastTurn(w.replies, 0, "a") == None;
    assert Chained(w.replies, w.responses, 0);
    assert w.replies[0].sendId == "a" && Turn(w.replies[0]);
    OriginalAdvanceBreaksChainIff(env, w.replies, w.responses, "a", R.RecoverHistorical(NewerPage("m2", None, "m")),
                                  w.now);
  }

  /** A reply is attached to an interrupted answer, and then a page shows that answer under another message id of
      the same turn. */
  lemma OriginalAdvanceExample(env: Env)
    ensures var events := [WriteReplies(Prepare("a", Intent("r1", "c", "m", "one"))),
                           WriteResponses(R.One("a", R.RecoverHistorical(NewerPage("m2", None, "m"))))];
            var w := Run(env, Start(1.0, Answered(R.Status.Interrupted)), events);
            !Chain(w.replies, w.responses)
  {
    var w0 := Start(1.0, Answered(R.Status.Interrupted));
    var e0 := WriteReplies(Prepare("a", Intent("r1", "c", "m", "one")));
    var e1 := WriteResponses(R.One("a", R.RecoverHistorical(NewerPage("m2", None, "m"))));
    FirstPrepared(env, w0);
    FirstIsOrphaned(env, w0.(replies := [First()]));
    RunTwo(env, w0, e0, e1, []);
    assert [e0, e1] + [] == [e0, e1];
  }
}
