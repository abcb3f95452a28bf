/** The steps that can pass the concurrency cap: exactly when they do, and a run for each. */
module Overruns {
  import opened Tables
  import opened DisplayBlocks
  import opened ToolCalls
  import opened Captures
  import opened Fleet
  import opened Capacity
  import Q = DeliveryQueue
  import R = Responses
  import P = Replies
  import AW = AnswerWriters
  import VT = VisibleText

  lemma OneMore(a: set<string>, b: set<string>, id: string)
    requires a <= b <= a + {id}
    ensures |b| > |a| <==> id in b && id !in a
  {
    if id in b && id !in a {
      assert b == a + {id};
    } else {
      assert b == a;
    }
  }

  /** A write to one response decides that response's slot and no other. */
  lemma OneResponse(env: Env, responses: R.Table, id: string, op: R.RowOp, at: Time)
    ensures var after := R.Apply(env, responses, R.One(id, op), at);
            (forall i :: i != id ==> (i in CaptureIds(after, at) <==> i in CaptureIds(responses, at))) &&
            (id in CaptureIds(after, at) <==>
               id in responses && Tracked(id) && LiveCapture(R.ApplyRow(env, responses[id], op, at), at))
  {
    forall i | i in responses && i != id ensures R.Apply(env, responses, R.One(id, op), at)[i] == responses[i] {
      R.ApplyIsPointwise(env, responses, R.One(id, op), at, i);
    }
  }

  lemma OneIdDecides(running: set<string>, before: set<string>, after: set<string>, replies: set<string>, id: string)
    requires forall i :: i != id ==> (i in after <==> i in before)
    ensures |running + (after + replies)| > |running + (before + replies)| <==>
              id in after && id !in running + (before + replies)
  {
    var was, now := running + (before + replies), running + (after + replies);
    if was <= now {
      OneMore(was, now, id);
    } else {
      SubsetSize(now, was);
    }
  }

  lemma OneResponseOverruns(env: Env, w: World, id: string, op: R.RowOp)
    requires |Active(w)| == w.maxActive
    ensures |Active(w.(responses := R.Apply(env, w.responses, R.One(id, op), w.now)))| > w.maxActive <==>
              id in w.responses && Tracked(id) && id !in Active(w) &&
              LiveCapture(R.ApplyRow(env, w.responses[id], op, w.now), w.now)
  {
    OneResponse(env, w.responses, id, op, w.now);
    OneIdDecides(Q.RunningIds(w.rows), CaptureIds(w.responses, w.now),
                 CaptureIds(R.Apply(env, w.responses, R.One(id, op), w.now), w.now), ReplyIds(w.replies, w.now), id);
  }

  /** With the cap reached, a late acceptance passes it exactly when the send occupies no slot yet and the
      store will take the receipt. */
  lemma AcceptanceOverrunsIff(env: Env, w: World, id: string, owner: string, deadline: Time)
    requires |Active(w)| == w.maxActive
    ensures |Active(w.(responses := R.Apply(env, w.responses, R.One(id, R.Accept(owner, deadline)),
                                            w.now)))| > w.maxActive <==>
              Tracked(id) && id !in Active(w) && deadline > w.now && id in w.responses &&
              R.Acceptable(w.responses[id].status)
  {
    OneResponseOverruns(env, w, id, R.Accept(owner, deadline));
  }

  lemma ObservedIsLiveIff(env: Env, r: R.Response, owner: string, c: Capture, deadline: Time, at: Time)
    requires !LiveCapture(r, at)
    ensures LiveCapture(R.ApplyRow(env, r, R.AcceptObserved(owner, c, deadline), at), at) <==>
              deadline > at && R.Acceptable(r.status) && r.acceptedAt == 0.0 && r.conversationId == "" &&
              r.messageId == "" && R.AcceptanceEvidence(c) && !c.status.Complete?
  {
  }

  /** Evidence from an owned page accepts a send under the same terms, unless the page shows a finished answer. */
  lemma ObservedAcceptanceOverrunsIff(env: Env, w: World, id: string, owner: string, c: Capture, deadline: Time)
    requires |Active(w)| == w.maxActive
    ensures |Active(w.(responses := R.Apply(env, w.responses, R.One(id, R.AcceptObserved(owner, c, deadline)),
                                            w.now)))| > w.maxActive <==>
              Tracked(id) && id !in Active(w) && deadline > w.now && id in w.responses &&
              R.Acceptable(w.responses[id].status) && w.responses[id].acceptedAt == 0.0 &&
              w.responses[id].conversationId == "" && w.responses[id].messageId == "" &&
              R.AcceptanceEvidence(c) && !c.status.Complete?
  {
    OneResponseOverruns(env, w, id, R.AcceptObserved(owner, c, deadline));
    if id in w.responses && Tracked(id) && id !in Active(w) {
      ObservedIsLiveIff(env, w.responses[id], owner, c, deadline, w.now);
    }
  }

  // ---------------------------------------------------------------- progress of a page read, as its caller sees it

  /** The text a page read offers to a response: what its merged blocks show, or else its own text. */
  function Offered(env: Env, saved: Saved, c: Capture): string {
    Take(AW.OrElse(env.display(env.mergeBlocks(saved.blocks, c.displayBlocks)), c.text), MAX_CHARS)
  }

  /** A truncated snapshot with nothing else to say. */
  predicate Refused(env: Env, saved: Saved, c: Capture, offered: string) {
    |offered| < |env.visible(saved)| && c.toolCalls == [] && !c.verifiedGenerating
  }

  /** Tools or blocks that are not saved yet. */
  predicate NewParts(env: Env, saved: Saved, tools: StoredCalls, c: Capture) {
    env.mergeTools(tools, c.toolCalls) != tools || env.mergeBlocks(saved.blocks, c.displayBlocks) != saved.blocks
  }

  /** The page read shows more than what is saved, without completing it. */
  predicate Progresses(env: Env, r: R.Response, c: Capture) {
    var offered, prior := Offered(env, r.saved, c), env.visible(r.saved);
    && R.RecoveryTarget(r, c) && !Refused(env, r.saved, c, offered)
    && (NewParts(env, r.saved, r.tools, c) || (|offered| >= |prior| && offered != prior))
    && !(c.status.Complete? && offered != "" && |offered| >= |prior|)
  }

  lemma RevivedIff(env: Env, r: R.Response, c: Capture, at: Time)
    requires !LiveCapture(r, at)
    ensures LiveCapture(R.ApplyRow(env, r, R.RecoverHistorical(c), at), at) <==>
              R.Capturing(r.status) && Progresses(env, r, c)
  {
  }

  /** With the cap reached, historical progress on a response passes it exactly on a capture that holds no slot
      and has more to show. */
  lemma RevivalOverrunsIff(env: Env, w: World, id: string, c: Capture)
    requires |Active(w)| == w.maxActive
    ensures |Active(w.(responses := R.Apply(env, w.responses, R.One(id, R.RecoverHistorical(c)),
                                            w.now)))| > w.maxActive <==>
              Tracked(id) && id !in Active(w) && id in w.responses && R.Capturing(w.responses[id].status) &&
              Progresses(env, w.responses[id], c)
  {
    OneResponseOverruns(env, w, id, R.RecoverHistorical(c));
    if id in w.responses && Tracked(id) && id !in Active(w) {
      RevivedIff(env, w.responses[id], c, w.now);
    }
  }

  /** The same for a reply: its text is the capture's own, and it completes against the saved text. */
  predicate ReplyProgresses(env: Env, r: P.Reply, c: Capture) {
    var sent := Take(c.text, MAX_CHARS);
    && P.RecoveryTarget(r, c) && !Refused(env, r.saved, c, sent)
    && (NewParts(env, r.saved, r.tools, c) || (|sent| >= |env.visible(r.saved)| && sent != r.saved.text))
    && !(c.status.Complete? && sent != "" && |sent| >= |r.saved.text|)
  }

  lemma ReplyRevivedIff(env: Env, r: P.Reply, c: Capture, verified: bool, at: Time)
    requires !LiveReply(r, at)
    ensures LiveReply(P.ApplyRow(env, r, P.RecoverHistorical(c, verified), at), at) <==>
              (r.status.Accepted? || r.status.Generating?) && verified && ReplyProgresses(env, r, c)
  {
  }

  /** A write to one reply of a chat without a live reply decides that chat's slot and no other. */
  lemma OneReply(replies: seq<P.Reply>, k: nat, r: P.Reply, at: Time)
    requires k < |replies| && r.sendId == replies[k].sendId && replies[k].sendId !in ReplyIds(replies, at)
    ensures ReplyIds(replies[k := r], at) ==
              ReplyIds(replies, at) + if LiveReply(r, at) then {replies[k].sendId} else {}
  {
    var after := replies[k := r];
    forall i | 0 <= i < |replies| && LiveReply(replies[i], at) ensures replies[i].sendId in ReplyIds(after, at) {
      assert i != k;
      assert after[i] == replies[i];
    }
    assert after[k] == r;
  }

  /** When the chat already has a live reply, the write opens nothing. */
  lemma LiveChatOpensNothing(replies: seq<P.Reply>, k: nat, r: P.Reply, at: Time)
    requires k < |replies| && r.sendId == replies[k].sendId && replies[k].sendId in ReplyIds(replies, at)
    ensures ReplyIds(replies[k := r], at) <= ReplyIds(replies, at)
  {
  }

  lemma OneReplyOverruns(running: set<string>, captures: set<string>, replies: seq<P.Reply>, k: nat, row: P.Reply,
                         at: Time, cap: int)
    requires k < |replies| && row.sendId == replies[k].sendId && |running + (captures + ReplyIds(replies, at))| == cap
    ensures |running + (captures + ReplyIds(replies[k := row], at))| > cap <==>
              replies[k].sendId !in running + (captures + ReplyIds(replies, at)) && LiveReply(row, at)
  {
    var send, before, after := replies[k].sendId, ReplyIds(replies, at), ReplyIds(replies[k := row], at);
    if send in before {
      LiveChatOpensNothing(replies, k, row, at);
      SubsetSize(running + (captures + after), running + (captures + before));
    } else {
      OneReply(replies, k, row, at);
      OneMore(running + (captures + before), running + (captures + after), send);
    }
  }

  function RecoverReplyRow(env: Env, w: World, k: nat, c: Capture): P.Reply
    requires k < |w.replies|
  {
    P.RecoverRow(env, w.replies[k], c, P.VerifiedParent(w.replies, w.responses, w.replies[k]), w.now)
  }

  lemma RecoverReplyStep(env: Env, w: World, id: string, c: Capture)
    ensures var k := P.Find(w.replies, id);
            w.(replies := P.Apply(env, w.replies, w.responses, P.RecoverReply(id, c), w.now)) ==
              if k < |w.replies| then w.(replies := w.replies[k := RecoverReplyRow(env, w, k, c)]) else w
  {
  }

  lemma RecoveredOverruns(env: Env, w: World, k: nat, c: Capture)
    requires |Active(w)| == w.maxActive && k < |w.replies|
    ensures |Active(w.(replies := w.replies[k := RecoverReplyRow(env, w, k, c)]))| > w.maxActive <==>
              w.replies[k].sendId !in Active(w) &&
              (w.replies[k].status.Accepted? || w.replies[k].status.Generating?) &&
              P.VerifiedParent(w.replies, w.responses, w.replies[k]) && ReplyProgresses(env, w.replies[k], c)
  {
    var r, row := w.replies[k], RecoverReplyRow(env, w, k, c);
    var verified := P.VerifiedParent(w.replies, w.responses, r);
    P.RowSteps(env, r, P.RecoverHistorical(c, verified), w.now);
    OneReplyOverruns(Q.RunningIds(w.rows), CaptureIds(w.responses, w.now), w.replies, k, row, w.now, w.maxActive);
    if r.sendId !in Active(w) {
      assert LiveReply(r, w.now) ==> r.sendId in ReplyIds(w.replies, w.now);
      ReplyRevivedIff(env, r, c, verified, w.now);
    }
  }

  /** With the cap reached, historical progress on a reply passes it exactly on a live reply of a chat that holds
      no slot, attached to its verified parent, and with more to show. */
  lemma ReplyRevivalOverrunsIff(env: Env, w: World, id: string, c: Capture)
    requires |Active(w)| == w.maxActive
    ensures var k := P.Find(w.replies, id);
            |Active(w.(replies := P.Apply(env, w.replies, w.responses, P.RecoverReply(id, c),
                                          w.now)))| > w.maxActive <==>
              k < |w.replies| && w.replies[k].sendId !in Active(w) &&
              (w.replies[k].status.Accepted? || w.replies[k].status.Generating?) &&
              P.VerifiedParent(w.replies, w.responses, w.replies[k]) && ReplyProgresses(env, w.replies[k], c)
  {
    RecoverReplyStep(env, w, id, c);
    if P.Find(w.replies, id) < |w.replies| {
      RecoveredOverruns(env, w, P.Find(w.replies, id), c);
    }
  }

  // ---------------------------------------------------------------- runs that pass the cap

  function Prompt(id: string): Q.Request {
    Q.Request(id, "hello", [], "", false, false, 1.0)
  }

  lemma FirstIsClaimed(rows: seq<Q.Delivery>, at: Time, captures: set<string>, owner: string)
    requires |rows| == 1 && Q.Claimable(rows[0], at) && captures == {}
    ensures Q.Claim(rows, at, owner, 1.0, captures, Some(1)) == [Q.ClaimedRow(rows[0], owner, 1.0, at)]
  {
    var swept := Q.Expire(rows, at);
    assert swept == rows && Q.RunningIds(swept) + captures == {};
    Q.NextIsExact(swept, at);
    assert Q.IsNext(swept, at, 0);
    Q.ClaimEffect(rows, at, owner, 1.0, captures, Some(1));
  }

  lemma SecondIsClaimed(rows: seq<Q.Delivery>, at: Time, captures: set<string>, owner: string)
    requires |rows| == 2 && Q.Expired(rows[0], at) && Q.Claimable(rows[1], at) && captures == {}
    ensures Q.Claim(rows, at, owner, 1.0, captures, Some(1)) ==
              [Q.ExpireRow(rows[0], at), Q.ClaimedRow(rows[1], owner, 1.0, at)]
  {
    var swept := Q.Expire(rows, at);
    assert swept == [Q.ExpireRow(rows[0], at), rows[1]];
    assert Q.RunningIds(swept) + captures == {};
    Q.NextIsExact(swept, at);
    assert Q.IsNext(swept, at, 1);
    Q.ClaimEffect(rows, at, owner, 1.0, captures, Some(1));
  }

  lemma {:induction false} RunConcat(env: Env, w: World, a: seq<Event>, b: seq<Event>)
    ensures Run(env, w, a + b) == Run(env, Run(env, w, a), b)
    decreases |a|
  {
    if a == [] {
      assert a + b == b;
    } else {
      assert (a + b)[1..] == a[1..] + b;
      RunConcat(env, Step(env, w, a[0]), a[1..], b);
    }
  }

  lemma RunOne(env: Env, w: World, e: Event)
    ensures Run(env, w, [e]) == Step(env, w, e)
  {
    assert [e][1..] == [];
  }

  lemma RunResponds(env: Env, w: World, op: R.Op)
    ensures Run(env, w, [Respond(op)]) == w.(responses := R.Apply(env, w.responses, op, w.now))
  {
    assert [Respond(op)][1..] == [];
  }

  lemma RunRecovers(env: Env, w: World, id: string, c: Capture)
    ensures Run(env, w, [Reply(P.RecoverReply(id, c))]) ==
              w.(replies := P.Apply(env, w.replies, w.responses, P.RecoverReply(id, c), w.now))
  {
    assert [Reply(P.RecoverReply(id, c))][1..] == [];
  }

  lemma RunThree(env: Env, w: World, a: Event, b: Event, c: Event)
    ensures Run(env, w, [a, b, c]) == Step(env, Step(env, Step(env, w, a), b), c)
  {
    var w1 := Step(env, w, a);
    assert [a, b, c] == [a] + [b, c] && [b, c] == [b] + [c];
    RunConcat(env, w, [a], [b, c]);
    RunConcat(env, w1, [b], [c]);
    RunOne(env, w, a);
    RunOne(env, w1, b);
    RunOne(env, Step(env, w1, b), c);
  }

  lemma ExampleClaims(env: Env, w: World, a: Q.Delivery)
    requires Active(w) == {} && w.rows == [a] && w.maxActive == 1 && Q.Claimable(a, w.now)
    ensures Step(env, w, ClaimNext("w1", 1.0)) == w.(rows := [Q.ClaimedRow(a, "w1", 1.0, w.now)])
  {
    FirstIsClaimed(w.rows, w.now, CapturedIds(w), "w1");
  }

  lemma ExampleSteals(env: Env, w: World, a: Q.Delivery, b: Q.Delivery)
    requires w.rows == [a, b] && w.maxActive == 1 && CapturedIds(w) == {}
    requires Q.Claimable(b, w.now) && Q.Expired(a, w.now)
    ensures Step(env, w, ClaimNext("w2", 1.0)) ==
              w.(rows := [Q.ExpireRow(a, w.now), Q.ClaimedRow(b, "w2", 1.0, w.now)])
  {
    SecondIsClaimed(w.rows, w.now, CapturedIds(w), "w2");
  }

  lemma ExampleStarts(env: Env)
    ensures Step(env, Step(env, World(1.0, 1, [], map[], [], {}), Queue(Q.Enqueue(Prompt("manual-a")))),
                 Respond(R.Ensure("manual-a", "hello", "")))
              == World(1.0, 1, [Q.NewRow(Prompt("manual-a"))], map["manual-a" := R.NewResponse("hello", "", 1.0)], [],
                       {})
  {
    var a := Prompt("manual-a");
    assert Q.Fresh([], a);
    assert Q.Apply([], 1.0, Q.Enqueue(a)) == [Q.NewRow(a)];
  }

  lemma ExampleEnqueues(env: Env, w: World)
    requires forall i :: 0 <= i < |w.rows| ==> w.rows[i].sendId == "manual-a"
    ensures Step(env, Step(env, w, Advance(2.0)), Queue(Q.Enqueue(Prompt("manual-b"))))
              == w.(now := w.now + 2.0, rows := w.rows + [Q.NewRow(Prompt("manual-b"))])
  {
    var b := Prompt("manual-b");
    assert "manual-a"[7] != "manual-b"[7];
    assert Q.Fresh(w.rows, b);
    assert Q.Apply(w.rows, w.now + 2.0, Q.Enqueue(b)) == w.rows + [Q.NewRow(b)];
  }

  lemma NothingActive(w: World)
    requires w.replies == [] && forall i :: 0 <= i < |w.rows| ==> !w.rows[i].status.Running?
    requires forall id :: id in w.responses ==> !LiveCapture(w.responses[id], w.now)
    ensures Active(w) == {} && CapturedIds(w) == {}
  {
  }

  // The stages the runs below are made of.

  function Asked(): seq<Event> {
    [Queue(Q.Enqueue(Prompt("manual-a"))), Respond(R.Ensure("manual-a", "hello", "")), ClaimNext("w1", 1.0)]
  }

  function Captured(): seq<Event> {
    [Respond(R.One("manual-a", R.Accept("tab", 2.0))), Respond(R.One("manual-a", R.BindRoute("tab", Some("c")))),
     Respond(R.One("manual-a", R.Detach))]
  }

  function Lapsed(): seq<Event> {
    [Advance(2.0), Queue(Q.Enqueue(Prompt("manual-b"))), ClaimNext("w2", 1.0)]
  }

  function FirstRow(): Q.Delivery { Q.ClaimedRow(Q.NewRow(Prompt("manual-a")), "w1", 1.0, 1.0) }

  /** The world after the first delivery was claimed, with these responses. */
  function Claimed(responses: R.Table): World { World(1.0, 1, [FirstRow()], responses, [], {}) }

  /** The world after its lease ran out and the second delivery was claimed. */
  function Stolen(rows: seq<Q.Delivery>, responses: R.Table, replies: seq<P.Reply>): World {
    World(3.0, 1, rows + [Q.ClaimedRow(Q.NewRow(Prompt("manual-b")), "w2", 1.0, 3.0)],
          responses, replies, {})
  }

  lemma AskedRun(env: Env)
    ensures Run(env, World(1.0, 1, [], map[], [], {}), Asked()) ==
              Claimed(map["manual-a" := R.NewResponse("hello", "", 1.0)])
  {
    var w2 := World(1.0, 1, [Q.NewRow(Prompt("manual-a"))], map["manual-a" := R.NewResponse("hello", "", 1.0)], [], {});
    ExampleStarts(env);
    NothingActive(w2);
    ExampleClaims(env, w2, w2.rows[0]);
    RunThree(env, World(1.0, 1, [], map[], [], {}), Asked()[0], Asked()[1], Asked()[2]);
  }

  function Detached(): R.Response {
    R.NewResponse("hello", "", 1.0).(status := R.Generating, acceptedAt := 1.0, conversationId := "c", deadline := 2.0)
  }

  lemma ExampleCaptures(env: Env, w: World)
    requires w.now == 1.0 && w.responses == map["manual-a" := R.NewResponse("hello", "", 1.0)]
    ensures Step(env, Step(env, Step(env, w, Respond(R.One("manual-a", R.Accept("tab", 2.0)))),
                                Respond(R.One("manual-a", R.BindRoute("tab", Some("c"))))),
                 Respond(R.One("manual-a", R.Detach)))
              == w.(responses := map["manual-a" := Detached()])
  {
  }

  lemma CapturedRun(env: Env)
    ensures Run(env, Claimed(map["manual-a" := R.NewResponse("hello", "", 1.0)]), Captured()) ==
              Claimed(map["manual-a" := Detached()])
  {
    var w := Claimed(map["manual-a" := R.NewResponse("hello", "", 1.0)]);
    ExampleCaptures(env, w);
    RunThree(env, w, Captured()[0], Captured()[1], Captured()[2]);
  }

  lemma LapsedRun(env: Env, responses: R.Table)
    requires forall id :: id in responses ==> !LiveCapture(responses[id], 3.0)
    ensures Run(env, Claimed(responses), Lapsed()) == Stolen([Q.ExpireRow(FirstRow(), 3.0)], responses, [])
  {
    var w, b := Claimed(responses), Q.NewRow(Prompt("manual-b"));
    ExampleEnqueues(env, w);
    var w2 := World(3.0, 1, [FirstRow()] + [b], responses, [], {});
    NothingActive(w2.(rows := []));
    ExampleSteals(env, w2, FirstRow(), b);
    RunThree(env, w, Lapsed()[0], Lapsed()[1], Lapsed()[2]);
  }

  lemma SecondIsActive(rows: seq<Q.Delivery>, responses: R.Table, replies: seq<P.Reply>)
    requires forall i :: 0 <= i < |rows| ==> !rows[i].status.Running?
    requires forall id :: id in responses ==> !LiveCapture(responses[id], 3.0)
    requires forall i :: 0 <= i < |replies| ==> !LiveReply(replies[i], 3.0)
    ensures Active(Stolen(rows, responses, replies)) == {"manual-b"}
  {
    var w := Stolen(rows, responses, replies);
    assert w.rows[|rows|].sendId == "manual-b" && w.rows[|rows|].status.Running?;
    assert Q.RunningIds(w.rows) == {"manual-b"} && CapturedIds(w) == {};
  }

  lemma FirstIsTracked()
    ensures Tracked("manual-a") && "manual-a" != "manual-b"
  {
    assert "manual-a"[..|"manual-"|] == "manual-";
    assert "manual-a"[7] != "manual-b"[7];
  }

  lemma LatePasses(env: Env, w: World)
    requires w == Stolen([Q.ExpireRow(FirstRow(), 3.0)], map["manual-a" := R.NewResponse("hello", "", 1.0)], [])
    ensures |Active(w.(responses := R.Apply(env, w.responses, R.One("manual-a", R.Accept("tab", 9.0)), w.now)))| > 1
  {
    SecondIsActive([Q.ExpireRow(FirstRow(), 3.0)], w.responses, []);
    FirstIsTracked();
    AcceptanceOverrunsIff(env, w, "manual-a", "tab", 9.0);
  }

  /** A cap of one is passed from an empty start: the first worker's lease runs out, its slot is given to a
      second delivery, and then the first browser still saves its acceptance. */
  lemma LateAcceptanceExample(env: Env)
    ensures var start := World(1.0, 1, [], map[], [], {});
            var late := Respond(R.One("manual-a", R.Accept("tab", 9.0)));
            |Active(Run(env, start, Asked() + Lapsed() + [late]))| > 1
  {
    var start := World(1.0, 1, [], map[], [], {});
    var responses := map["manual-a" := R.NewResponse("hello", "", 1.0)];
    var w := Stolen([Q.ExpireRow(FirstRow(), 3.0)], responses, []);
    AskedRun(env);
    LapsedRun(env, responses);
    RunConcat(env, start, Asked(), Lapsed());
    RunConcat(env, start, Asked() + Lapsed(), [Respond(R.One("manual-a", R.Accept("tab", 9.0)))]);
    RunResponds(env, w, R.One("manual-a", R.Accept("tab", 9.0)));
    LatePasses(env, w);
  }

  // ---------------------------------------------------------------- runs that revive an expired capture

  /** What an empty row shows and merges to. */
  predicate Blank(env: Env) {
    env.visible(Saved("", Items([]))) == "" && env.display(Items([])) == "" &&
    env.mergeBlocks(Items([]), []) == Items([])
  }

  lemma FaithfulIsBlank(env: Env, sim: Similarity)
    requires VT.Faithful(env, sim)
    ensures Blank(env)
  {
    VT.VisibleBound(sim, Saved("", Items([])));
    assert Normalize(sim, Items([])) == [];
  }

  /** A page that shows the first words of an answer. */
  function FirstWords(messageId: string, parentId: Option<string>): Capture {
    Capture(Dom, Partial, "hi", Some("c"), Some(messageId), parentId, None, [], false, [], [])
  }

  lemma FirstWordsProgress(env: Env)
    requires Blank(env)
    ensures Progresses(env, Detached(), FirstWords("m", None))
  {
  }

  lemma RevivalPasses(env: Env, sim: Similarity, w: World)
    requires VT.Faithful(env, sim)
    requires w == Stolen([Q.ExpireRow(FirstRow(), 3.0)], map["manual-a" := Detached()], [])
    ensures var op := R.One("manual-a", R.RecoverHistorical(FirstWords("m", None)));
            |Active(w.(responses := R.Apply(env, w.responses, op, w.now)))| > 1
  {
    SecondIsActive([Q.ExpireRow(FirstRow(), 3.0)], map["manual-a" := Detached()], []);
    FirstIsTracked();
    FaithfulIsBlank(env, sim);
    FirstWordsProgress(env);
    RevivalOverrunsIff(env, w, "manual-a", FirstWords("m", None));
  }

  /** A cap of one is passed from an empty start: a detached capture expires, its slot is given to a second
      delivery, and then a page read finds the first words of its answer. */
  lemma RevivalExample(env: Env, sim: Similarity)
    requires VT.Faithful(env, sim)
    ensures var start := World(1.0, 1, [], map[], [], {});
            var read := Respond(R.One("manual-a", R.RecoverHistorical(FirstWords("m", None))));
            |Active(Run(env, start, Asked() + Captured() + Lapsed() + [read]))| > 1
  {
    var start, read := World(1.0, 1, [], map[], [], {}),
        Respond(R.One("manual-a", R.RecoverHistorical(FirstWords("m", None))));
    var w := Stolen([Q.ExpireRow(FirstRow(), 3.0)], map["manual-a" := Detached()], []);
    AskedRun(env);
    CapturedRun(env);
    LapsedRun(env, map["manual-a" := Detached()]);
    RunConcat(env, start, Asked(), Captured());
    RunConcat(env, start, Asked() + Captured(), Lapsed());
    RunConcat(env, start, Asked() + Captured() + Lapsed(), [read]);
    RunResponds(env, w, R.One("manual-a", R.RecoverHistorical(FirstWords("m", None))));
    RevivalPasses(env, sim, w);
  }

  /** A finished answer that replies can be attached to. */
  function Answered(): R.Table {
    map["manual-a" := R.NewResponse("hello", "", 1.0).(status := R.Completed, conversationId := "c", messageId := "m")]
  }

  function FirstReply(): P.Reply { P.NewReply("r", "manual-a", "c", "m", "more", "", P.Prepared, false, 1.0) }

  function AcceptedReply(): P.Reply {
    FirstReply().(status := P.Accepted, owner := "tab", deadline := 2.0, acceptedAt := 1.0)
  }

  function DetachedReply(): P.Reply { AcceptedReply().(status := P.Generating, owner := "") }

  function Replied(): seq<Event> {
    [Reply(P.Prepare("manual-a", P.Intent("r", "c", "m", "more"))), ClaimReply("r", "tab", 2.0),
     Reply(P.One("r", P.Acknowledge("tab", "c", "m")))]
  }

  lemma PreparedReply(env: Env, w: World)
    requires w.now == 1.0 && w.replies == [] && w.responses == Answered()
    ensures Step(env, w, Replied()[0]) == w.(replies := [FirstReply()])
  {
  }

  lemma ClaimedReply(env: Env, w: World)
    requires w.now == 1.0 && w.maxActive == 1 && w.replies == [FirstReply()] && Active(w) == {}
    ensures Step(env, w, Replied()[1]) ==
              w.(replies := [FirstReply().(status := P.Dispatching, owner := "tab", deadline := 2.0)])
  {
  }

  lemma AcknowledgedReply(env: Env, w: World)
    requires w.now == 1.0 && w.replies == [FirstReply().(status := P.Dispatching, owner := "tab", deadline := 2.0)]
    ensures Step(env, w, Replied()[2]) == w.(replies := [AcceptedReply()])
  {
  }

  lemma RepliedRun(env: Env)
    ensures Run(env, World(1.0, 1, [], Answered(), [], {}), Replied()) ==
              World(1.0, 1, [], Answered(), [AcceptedReply()], {})
  {
    var w := World(1.0, 1, [], Answered(), [], {});
    PreparedReply(env, w);
    var w1 := w.(replies := [FirstReply()]);
    assert Active(w1) == {};
    ClaimedReply(env, w1);
    AcknowledgedReply(env, w.(replies := [FirstReply().(status := P.Dispatching, owner := "tab", deadline := 2.0)]));
    RunThree(env, w, Replied()[0], Replied()[1], Replied()[2]);
  }

  lemma DetachedRun(env: Env)
    ensures Run(env, World(1.0, 1, [], Answered(), [AcceptedReply()], {}), [Reply(P.One("r", P.Detach))]) ==
              World(1.0, 1, [], Answered(), [DetachedReply()], {})
  {
    RunOne(env, World(1.0, 1, [], Answered(), [AcceptedReply()], {}), Reply(P.One("r", P.Detach)));
  }

  lemma ClaimsAlone(env: Env, w: World, b: Q.Delivery)
    requires w == World(3.0, 1, [b], Answered(), [DetachedReply()], {}) && Q.Claimable(b, 3.0)
    ensures Step(env, w, ClaimNext("w2", 1.0)) == w.(rows := [Q.ClaimedRow(b, "w2", 1.0, 3.0)])
  {
    assert CapturedIds(w) == {};
    FirstIsClaimed(w.rows, 3.0, CapturedIds(w), "w2");
  }

  lemma LapsedAlone(env: Env)
    ensures Run(env, World(1.0, 1, [], Answered(), [DetachedReply()], {}), Lapsed()) ==
              Stolen([], Answered(), [DetachedReply()])
  {
    var w, b := World(1.0, 1, [], Answered(), [DetachedReply()], {}), Q.NewRow(Prompt("manual-b"));
    ExampleEnqueues(env, w);
    assert [] + [b] == [b];
    ClaimsAlone(env, World(3.0, 1, [b], Answered(), [DetachedReply()], {}), b);
    RunThree(env, w, Lapsed()[0], Lapsed()[1], Lapsed()[2]);
  }

  lemma ReplyFirstWords(env: Env, w: World)
    requires Blank(env) && w == Stolen([], Answered(), [DetachedReply()])
    ensures ReplyProgresses(env, DetachedReply(), FirstWords("n", Some("m")))
    ensures P.Find(w.replies, "r") == 0 && P.VerifiedParent(w.replies, w.responses, DetachedReply())
  {
    assert env.visible(DetachedReply().saved) == "";
    assert P.RecoveryTarget(DetachedReply(), FirstWords("n", Some("m")));
    assert Take("hi", MAX_CHARS) == "hi";
    assert P.Find(w.replies, "r") == 0;
  }

  lemma ReplyRevivalPasses(env: Env, sim: Similarity, w: World)
    requires VT.Faithful(env, sim) && w == Stolen([], Answered(), [DetachedReply()])
    ensures var op := P.RecoverReply("r", FirstWords("n", Some("m")));
            |Active(w.(replies := P.Apply(env, w.replies, w.responses, op, w.now)))| > 1
  {
    SecondIsActive([], Answered(), [DetachedReply()]);
    FirstIsTracked();
    FaithfulIsBlank(env, sim);
    ReplyFirstWords(env, w);
    ReplyRevivalOverrunsIff(env, w, "r", FirstWords("n", Some("m")));
  }

  /** The same from a saved answer: a detached reply expires, its slot is given to a fresh delivery, and then a
      page read finds the first words of the reply's answer. */
  lemma ReplyRevivalExample(env: Env, sim: Similarity)
    requires VT.Faithful(env, sim)
    ensures var start := World(1.0, 1, [], Answered(), [], {});
            var detach, read := Reply(P.One("r", P.Detach)), Reply(P.RecoverReply("r", FirstWords("n", Some("m"))));
            |Active(Run(env, start, Replied() + [detach] + Lapsed() + [read]))| > 1
  {
    var start := World(1.0, 1, [], Answered(), [], {});
    var detach, read := Reply(P.One("r", P.Detach)), Reply(P.RecoverReply("r", FirstWords("n", Some("m"))));
    var w := Stolen([], Answered(), [DetachedReply()]);
    RepliedRun(env);
    DetachedRun(env);
    LapsedAlone(env);
    RunConcat(env, start, Replied(), [detach]);
    RunConcat(env, start, Replied() + [detach], Lapsed());
    RunConcat(env, start, Replied() + [detach] + Lapsed(), [read]);
    RunRecovers(env, w, "r", FirstWords("n", Some("m")));
    ReplyRevivalPasses(env, sim, w);
  }
}
